# Admin dashboard: question editor and material tags

This project models the two stateful parts of the quiz platform's admin dashboard
and proves properties of that model in Dafny.

- **The question editor** (`QuestionManagement`). It covers:
  - how fetched question records are normalised. `AnswerChoices` may arrive as a list, as one comma-separated string or as anything else. `Tags` and `Materials` default to empty lists, and `Type` defaults to `text`;
  - how the answer choices are edited: add, remove, pick the correct answer, or retype the whole list as text;
  - how tags and materials are selected and deselected;
  - how the tag search filters the catalogue;
  - how a question is validated before it is saved, and the PUT or POST request the save sends;
  - which tag and material associations are added and removed after the save, and in which order.
- **The material section** (`MaterialManagement`). It covers:
  - the add/edit form: its field resets, its validation, and the PUT or POST request it sends;
  - the tags dialog. This is the list of tags attached to a material and the tags that can still be attached, which are the catalogue tags whose ID the material does not carry yet;
  - the attach and detach calls the dialog makes.

Each React component becomes a Dafny class. Its `useState` hooks become fields, and each event handler becomes a method that modifies only the fields the handler sets. A ghost `Valid()` predicate states the invariant that every handler keeps. For example, the question modal is open exactly when a question is being edited. The material dialog only ever offers catalogue tags, in catalogue order, that the material does not carry.

The pure computations are functions, with lemmas relating them. These are:
- normalisation;
- choice parsing;
- validation;
- the request builders;
- the diffs;
- selection;
- the tag search;
- the available-tags filter.

Inputs from outside are parameters of the methods:
- Each backend response is a `Result`: the decoded body, or the message of the error that was raised.
- Whether `getAuthHeaders` returned headers is a boolean.
- `BACKEND_URL` is a string, and it counts as missing when it is empty.

The JavaScript built-ins the handlers rely on are written out once in `Text` and `Collections`, each with its own lemmas:
- `trim`, using the full ECMAScript whitespace set;
- `toLowerCase`;
- `includes`;
- `split`;
- `filter`;
- `find`;
- `splice`;
- the decimal rendering of an ID in a URL.

Where the code differs from what a reader of the handlers might expect, the model follows the code:
- A material is updated with PUT only when `currentMaterial?.ID` is truthy. A draft with ID `0` is created with POST. A question, by contrast, is updated whenever its `ID` is not `undefined`, so ID `0` gives PUT.
- Saving a material with no backend URL configured fails with the same message as a blank URL or description: "URL and Description are required.".
- The tag search checks the query for blankness after trimming, but matches names against the untrimmed, lower-cased query.
- Removing a choice at an index past the end leaves the list and the correct answer unchanged, because `splice` there is a no-op.

## Model

| member | source | states |
|---|---|---|
| Text.Trim | src/components/admin/QuestionManagement.tsx:159-161 | The trimmed text has no whitespace at either end, uses only characters of the input, is empty exactly when the input is all whitespace, and leaves trimmed text alone |
| Text.TrimRemovesOnlyEnds | src/components/admin/QuestionManagement.tsx:159-161 | The trimmed text is a contiguous slice of the input: only a whitespace prefix and a whitespace suffix are dropped |
| Text.Split | src/components/admin/QuestionManagement.tsx:194 | `split` always gives at least one piece (JoinSplit, SplitPiecesFree and SplitJoin below pin the pieces down) |
| Text.JoinSplit | src/components/admin/QuestionManagement.tsx:194 | Joining the pieces of `split(',')` with commas gives the original text back |
| Text.SplitJoin | src/components/admin/QuestionManagement.tsx:194 | Splitting comma-joined pieces that contain no comma gives the pieces back |
| Text.SplitPiecesFree | src/components/admin/QuestionManagement.tsx:194 | No piece of `split(sep)` contains the separator |
| Text.Contains | src/components/admin/QuestionManagement.tsx:388 | `includes` holds for the empty needle and whenever the needle starts the text, and never for a needle longer than the text (ContainsIffOccurs gives the full meaning) |
| Text.Lower | src/components/admin/QuestionManagement.tsx:386-388 | Lowers the ASCII capitals A-Z in place and keeps every other character, so the length is kept |
| Text.ContainsIffOccurs | src/components/admin/QuestionManagement.tsx:388 | `includes` holds exactly when the needle occurs at some position of the text |
| Text.LowerKeepsBlank | src/components/admin/QuestionManagement.tsx:386-388 | Lower-casing cannot make a query blank or non-blank |
| Text.IntToString | src/components/admin/QuestionManagement.tsx:231 | `${id}` renders at least one character: a leading minus sign exactly for a negative ID, then only decimal digits |
| Text.IntToStringHasNoSlash | src/components/admin/MaterialManagement.tsx:241 | A rendered ID never contains `/`, so it cannot run into the next path segment |
| Text.IntToStringInjective | src/components/admin/QuestionManagement.tsx:231 | Distinct IDs render to distinct decimal strings |
| Collections.Filter | src/components/admin/QuestionManagement.tsx:262-263 | `filter` keeps exactly the elements that pass, and is never longer than its input |
| Collections.FilterIsSubsequence | src/components/admin/QuestionManagement.tsx:362 | `filter` keeps the relative order of what it keeps |
| Collections.FilterCounts | src/components/admin/MaterialManagement.tsx:205 | `filter` keeps every passing element as often as it occurs, and drops every other one |
| Collections.FilterAppend | src/components/admin/QuestionManagement.tsx:362 | Filtering a concatenation is concatenating the filtered parts |
| Collections.FindFirst | src/components/admin/QuestionManagement.tsx:355 | `find` returns nothing exactly when no element passes; otherwise it returns the first element that passes |
| Collections.RemoveAt | src/components/admin/QuestionManagement.tsx:170-171 | `splice(i, 1)` drops exactly the element at `i`, keeping the elements before it and shifting the ones after it down; an index past the end changes nothing |
| Collections.RemoveAtInverse | src/components/admin/QuestionManagement.tsx:170-171 | Putting the spliced-out choice back at its index restores the list, and the two lists differ by exactly that element |
| QuestionManagement.TrimNonEmptyMembers | src/components/admin/QuestionManagement.tsx:194 | After `map(trim).filter(Boolean)`, a string is present exactly when it is the trimmed form of some non-blank piece |
| QuestionManagement.TrimNonEmptyIsFilter | src/components/admin/QuestionManagement.tsx:194 | The piece-by-piece definition equals trimming every piece and then keeping the non-empty results |
| QuestionManagement.ParseChoices | src/components/admin/QuestionManagement.tsx:194 | A choice parsed from comma-separated text (here and at line 102) is exactly the trimmed form of a non-blank piece between commas, and every such piece gives one. Every choice is non-empty, trimmed and comma-free |
| QuestionManagement.ParseChoicesKeepOrder | src/components/admin/QuestionManagement.tsx:194 | The choices keep the order of the pieces, and each trimmed piece appears as often as it occurs; empty results are dropped |
| QuestionManagement.ParseChoicesOfPieces | src/components/admin/QuestionManagement.tsx:194 | Comma-free pieces, padded or blank, joined with commas parse to their trimmed non-blank forms, in order |
| QuestionManagement.ParseChoicesExample | src/components/admin/QuestionManagement.tsx:194 | `"a, ,b "` parses to `["a", "b"]`: padding is trimmed and the blank piece is dropped |
| QuestionManagement.ParseChoicesOfJoin | src/components/admin/QuestionManagement.tsx:102 | Clean choices joined with commas parse back to the same list |
| QuestionManagement.Normalize | src/components/admin/QuestionManagement.tsx:97-109 | A fetched record keeps its other fields. Choices given as a list are kept, choices given as text are parsed, and anything else becomes empty. Non-list tags and materials become empty. A falsy type becomes `text`, and the type is never empty |
| QuestionManagement.NormalizeWellFormed | src/components/admin/QuestionManagement.tsx:97-109 | Normalisation changes nothing in a record that is already well formed |
| QuestionManagement.NormalizeJoinedChoices | src/components/admin/QuestionManagement.tsx:99-103 | A question whose clean choices arrive as one comma-separated string is rebuilt exactly |
| QuestionManagement.NormalizeAll | src/components/admin/QuestionManagement.tsx:97-110 | The list keeps its length, and each entry is the normalised record |
| QuestionManagement.AddChoice | src/components/admin/QuestionManagement.tsx:158-164 | A blank new choice leaves the list alone. Otherwise the trimmed choice, which is non-empty and trimmed, is appended after the unchanged list |
| QuestionManagement.AddThenRemoveChoice | src/components/admin/QuestionManagement.tsx:158-183 | Removing the choice just added gives the choices back |
| QuestionManagement.RemoveChoice | src/components/admin/QuestionManagement.tsx:167-183 | The choice at the index is spliced out. The correct answer is cleared exactly when it was the removed choice, and is otherwise kept along with every other field |
| QuestionManagement.SetField | src/components/admin/QuestionManagement.tsx:151-155 | The named input's field takes the typed text, and every other field is kept |
| QuestionManagement.ValidateQuestion | src/components/admin/QuestionManagement.tsx:208-224 | For each of the three refusal messages, the exact condition under which it is returned, checked in the source's order. Saving may go on exactly when the question is not multiple choice, or when it has at least two choices and a non-empty correct answer among them |
| QuestionManagement.AddChoiceKeepsValid | src/components/admin/QuestionManagement.tsx:158-224 | Adding a choice never makes a valid question invalid |
| QuestionManagement.RemovingCorrectAnswerBlocksSave | src/components/admin/QuestionManagement.tsx:173-218 | Removing the correct answer makes the next save fail with "too few choices" or "select a correct answer" |
| QuestionManagement.TextQuestionPassesValidation | src/components/admin/QuestionManagement.tsx:209 | A question switched to the text type passes validation |
| QuestionManagement.TextEditKeepsValidation | src/components/admin/QuestionManagement.tsx:151-224 | Editing the description, hint or explanation never changes the validation outcome: a valid question stays valid and a refused one keeps its message |
| QuestionManagement.OrNull | src/components/admin/QuestionManagement.tsx:240-241 | An empty or missing hint or explanation is sent as null, and any other value as is |
| QuestionManagement.QuestionSaveRequest | src/components/admin/QuestionManagement.tsx:229-244 | PUT to `/v1/api/questions/{ID}` exactly when the question has an ID, and POST to `/v1/api/questions` otherwise. The payload carries the question's fields |
| QuestionManagement.SaveUrlIdentifiesQuestion | src/components/admin/QuestionManagement.tsx:229-232 | Two updates sent to the same URL update the same question |
| QuestionManagement.Difference | src/components/admin/QuestionManagement.tsx:262-263 | An ID is to be added (or removed) exactly when it is in one list and not in the other |
| QuestionManagement.DifferencesDisjoint | src/components/admin/QuestionManagement.tsx:262-263 | No ID is both added and removed |
| QuestionManagement.DifferenceOrder | src/components/admin/QuestionManagement.tsx:259-263 | The diff keeps list order and keeps each surviving ID as often as the list holds it, so a duplicated ID gives two calls. Against nothing it is the whole list, and from nothing it is empty |
| QuestionManagement.OriginalOf | src/components/admin/QuestionManagement.tsx:260 | The original is the first loaded question with the edited question's ID. There is none exactly when the question is new or no loaded question has that ID |
| QuestionManagement.CallsFor | src/components/admin/QuestionManagement.tsx:265-284 | One association call per ID, in the IDs' order |
| QuestionManagement.ApplyCallsFor | src/components/admin/QuestionManagement.tsx:320-348 | A run of add (or remove) calls adds (or removes) exactly its IDs from the question's associations |
| QuestionManagement.ApplyCallsAppend | src/components/admin/QuestionManagement.tsx:265-284 | Running two batches of calls one after the other is running their concatenation |
| QuestionManagement.PlannedCalls | src/components/admin/QuestionManagement.tsx:258-284 | Every association call made after a save is for the saved question |
| QuestionManagement.InCallsFor | src/components/admin/QuestionManagement.tsx:265-284 | A call is in a loop's batch exactly when it has the loop's operation, question and kind and one of its IDs |
| QuestionManagement.PlannedCallsNeeded | src/components/admin/QuestionManagement.tsx:258-284 | A call is planned exactly when it is for the saved question and needed: an add for an ID the editor holds and the loaded question lacked, a remove for an ID the loaded question had and the editor dropped |
| QuestionManagement.PlannedCallsReachEdit | src/components/admin/QuestionManagement.tsx:258-284 | The calls turn the loaded question's associations into exactly the tags and materials shown in the editor |
| QuestionManagement.PlannedCallsForNewQuestion | src/components/admin/QuestionManagement.tsx:258-284 | A new question gets every selected tag and material added and nothing removed |
| QuestionManagement.AppendCalls | src/components/admin/QuestionManagement.tsx:265-267 | The `for ... of` loop appends one call per ID, in order |
| QuestionManagement.AssociationCalls | src/components/admin/QuestionManagement.tsx:258-284 | The four loops issue, in order, the tag additions, the tag removals, the material additions and the material removals |
| QuestionManagement.ToggleSelection | src/components/admin/QuestionManagement.tsx:350-382 | Selecting appends the first catalogue entry with the ID, and only when one exists and the ID is not yet selected. Deselecting removes every entry with the ID and keeps the others |
| QuestionManagement.DeselectKeepsOrder | src/components/admin/QuestionManagement.tsx:362 | Deselecting keeps the other entries in order and as often as they occurred |
| QuestionManagement.ToggleKeepsDistinct | src/components/admin/QuestionManagement.tsx:354-363 | Selection never introduces a duplicate ID |
| QuestionManagement.SelectThenDeselect | src/components/admin/QuestionManagement.tsx:354-363 | Selecting an unselected ID and deselecting it restores the selection |
| QuestionManagement.FilteredTags | src/components/admin/QuestionManagement.tsx:385-390 | A blank query shows every tag. Otherwise exactly the tags whose lower-cased name includes the lower-cased query are shown |
| QuestionManagement.FilteredTagsKeepOrder | src/components/admin/QuestionManagement.tsx:385-390 | The search result keeps catalogue order, and each matching tag as often as the catalogue has it; a non-matching tag never appears |
| QuestionManagement.FilteredTagsIgnoreQueryCase | src/components/admin/QuestionManagement.tsx:386-388 | The search result does not depend on the case of the query |
| QuestionManagement.FilteredTagsMatchSubstring | src/components/admin/QuestionManagement.tsx:387-389 | A tag is shown exactly when the lower-cased query occurs in its lower-cased name |
| QuestionManagement.WithChoices | src/components/admin/QuestionManagement.tsx:192-196 | The retyped list replaces the choices, and no question stays no question |
| QuestionManagement.QuestionEditor.constructor | src/components/admin/QuestionManagement.tsx:67-75 | The editor starts empty and closed |
| QuestionManagement.QuestionEditor.FetchQuestions | src/components/admin/QuestionManagement.tsx:79-117 | No backend: nothing changes. No credentials: only the error is set. Otherwise the list becomes the normalised records, or becomes empty with the error message, and loading ends |
| QuestionManagement.QuestionEditor.OpenModal | src/components/admin/QuestionManagement.tsx:125-142 | The editor holds the given question or a blank multiple choice one, with the new-choice and search inputs and the error cleared |
| QuestionManagement.QuestionEditor.CloseModal | src/components/admin/QuestionManagement.tsx:144-149 | The modal is closed, no question is held, and the error and new-choice input are cleared |
| QuestionManagement.QuestionEditor.SetNewChoice | src/components/admin/QuestionManagement.tsx:552 | The new-choice input takes the typed text |
| QuestionManagement.QuestionEditor.SetTagSearchQuery | src/components/admin/QuestionManagement.tsx:627 | The search input takes the typed text |
| QuestionManagement.QuestionEditor.VisibleTags | src/components/admin/QuestionManagement.tsx:385-390 | Only catalogue tags are listed |
| QuestionManagement.QuestionEditor.ChangeField | src/components/admin/QuestionManagement.tsx:151-155 | With a question open, the named field takes the text, and otherwise nothing changes |
| QuestionManagement.QuestionEditor.AddNewChoice | src/components/admin/QuestionManagement.tsx:158-164 | A non-blank new choice is appended trimmed and the input is cleared. Otherwise nothing changes, and the input is kept |
| QuestionManagement.QuestionEditor.RemoveChoiceAt | src/components/admin/QuestionManagement.tsx:167-183 | The held question becomes `RemoveChoice` of it |
| QuestionManagement.QuestionEditor.SetCorrectAnswer | src/components/admin/QuestionManagement.tsx:186-189 | The held question's correct answer becomes the chosen choice |
| QuestionManagement.QuestionEditor.ChangeAnswerChoices | src/components/admin/QuestionManagement.tsx:192-196 | The held question's choices become the parsed text |
| QuestionManagement.QuestionEditor.ChangeTagSelection | src/components/admin/QuestionManagement.tsx:350-365 | The tags are toggled, and tags without duplicate IDs stay so |
| QuestionManagement.QuestionEditor.ChangeMaterialSelection | src/components/admin/QuestionManagement.tsx:367-382 | The materials are toggled, and materials without duplicate IDs stay so |
| QuestionManagement.QuestionEditor.Save | src/components/admin/QuestionManagement.tsx:200-295 | No question or no backend: nothing. No credentials, or a failed validation: only the message is set; the question, the new-choice input and the saving flag are kept. Otherwise the request is built from the question. On success the planned association calls are made and the modal closes; on failure the message is shown and the question is kept. Once the request is sent, saving ends |
| MaterialManagement.IdSet | src/components/admin/MaterialManagement.tsx:204 | The set holds exactly the IDs of the material's current tags |
| MaterialManagement.AvailableTags | src/components/admin/MaterialManagement.tsx:204-205 | A tag is available exactly when it is in the catalogue and no current tag has its ID |
| MaterialManagement.AvailableTagsKeepOrder | src/components/admin/MaterialManagement.tsx:204-205 | The available tags are an order-preserving subsequence of the catalogue. Each catalogue tag is either kept as often as it occurs or has an ID among the current tags |
| MaterialManagement.AvailableTagsWithoutCurrent | src/components/admin/MaterialManagement.tsx:201-205 | A material without tags can take every catalogue tag |
| MaterialManagement.AvailableTagsDistinct | src/components/admin/MaterialManagement.tsx:205 | A catalogue without duplicate IDs gives available tags without duplicate IDs |
| MaterialManagement.AvailableTagsAfterAttach | src/components/admin/MaterialManagement.tsx:204-205 | Attaching one tag removes exactly the tags with its ID from the available list |
| MaterialManagement.MaterialSaveRequest | src/components/admin/MaterialManagement.tsx:134-142 | PUT to `/v1/api/materials/{ID}` exactly when the current material has a truthy ID, and POST to `/v1/api/materials` otherwise. The body carries the form's URL, description and meta tags |
| MaterialManagement.TagLinkUrl | src/components/admin/MaterialManagement.tsx:241-262 | The attach and detach URLs sit below the materials path and end in `/add` or `/remove` according to the direction |
| MaterialManagement.TagLinkUrlIdentifiesLink | src/components/admin/MaterialManagement.tsx:241-262 | Two attach or detach URLs are equal only when they name the same material, the same tag and the same direction |
| MaterialManagement.SaveUrlIdentifiesMaterial | src/components/admin/MaterialManagement.tsx:134-137 | An update never goes to the creation URL, and two updates to the same URL update the same material |
| MaterialManagement.FieldOrEmpty | src/components/admin/MaterialManagement.tsx:106-108 | A missing field is shown as empty, and a present one as it is |
| MaterialManagement.MaterialForm.constructor | src/components/admin/MaterialManagement.tsx:56-72 | The section starts with no materials and both dialogs closed |
| MaterialManagement.MaterialForm.FetchMaterials | src/components/admin/MaterialManagement.tsx:75-96 | No backend: nothing changes. No credentials: only the error is set. Otherwise the list becomes the body (a null body gives empty), or becomes empty with the error message, and loading ends |
| MaterialManagement.MaterialForm.OpenMaterialModal | src/components/admin/MaterialManagement.tsx:104-111 | The form is open on the given material, shows its URL, description and meta tags (each blank when missing), and the error is cleared |
| MaterialManagement.MaterialForm.EditFields | src/components/admin/MaterialManagement.tsx:335-343 | The inputs take the typed text |
| MaterialManagement.MaterialForm.CloseMaterialModal | src/components/admin/MaterialManagement.tsx:113-120 | The form is closed, holds no material, has three blank fields and no error |
| MaterialManagement.MaterialForm.SaveMaterial | src/components/admin/MaterialManagement.tsx:122-152 | A blank URL or description, or no backend, sets "URL and Description are required." and nothing else changes. No credentials sets the authentication message. Otherwise the request is built from the form. Success closes and blanks the form; failure shows the message and keeps the form. Once the request is sent, loading ends |
| MaterialManagement.MaterialForm.FetchDetails | src/components/admin/MaterialManagement.tsx:186-214 | On success the dialog shows the fetched material, its tags (or none) and the tags still available. On failure both lists become empty and the message is set. Without a backend nothing changes, and without credentials only the message is set; once the request is sent, loading ends |
| MaterialManagement.MaterialForm.OpenTagsModal | src/components/admin/MaterialManagement.tsx:216-220 | The dialog opens on the material and then loads its details. No backend: lists, error and loading are kept. No credentials: the authentication error is shown. Otherwise loading ends; on success the fetched material, its tags and the catalogue tags it lacks are shown with no error; on failure the message is shown with empty lists |
| MaterialManagement.MaterialForm.UpdateMaterialTag | src/components/admin/MaterialManagement.tsx:231-270 | Without a selected material or backend nothing changes. Without credentials only "Authentication required." is set: nothing is posted and the lists are kept. Otherwise the attach or detach URL is posted to, and on success the dialog is reloaded. On failure the message is set and the lists are kept |
| MaterialManagement.MaterialForm.CloseTagsModal | src/components/admin/MaterialManagement.tsx:222-229 | The dialog is closed, holds no material, both lists are empty, and the error and loading flag are cleared |

## Left out

- Network I/O. The `fetch` calls, response parsing (`parseError`, `response.json()`) and next-auth header construction are not modelled. Their outcomes are method parameters instead.
- QuestionManagement.QuestionEditor.Save: does not model the re-fetch of the question list before the modal closes (line 287). The list is left as it was.
- QuestionManagement.QuestionEditor.Save: models authentication and the backend URL as constant during the save. The association helpers re-check both before each call (lines 321-323).
- QuestionManagement.QuestionEditor.Save: a failed association call is only logged, and the save goes on; the model issues every planned call and does not model failures.
- MaterialManagement.MaterialForm.SaveMaterial: does not model the re-fetch of the material list after a successful save (line 147). The list is left as it was.
- Asynchronous interleaving. Every handler runs to completion, so the window in which `isSaving` or a loading flag is true is not observable. A dialog closed while its fetch is still in flight is not modelled either.
- Text.Lower: lowers only the ASCII capitals A-Z. JavaScript's `toLowerCase` also lowers every other Unicode capital, lowers the final sigma by context, and can change the length (U+0130 becomes two characters). So `LowerIdempotent`, `LowerKeepsBlank` and `FilteredTagsIgnoreQueryCase` are proved for ASCII case only.
- QuestionManagement.FilteredTags: `toLowerCase` is modelled for ASCII letters only (see Text.Lower). Characters outside A-Z are left as they are.
- `sortedQuestions` (lines 393-395). It orders by parsing `CreatedAt` as a date.
- `handleDelete` and `handleDeleteMaterial` (QuestionManagement.tsx 297-316, MaterialManagement.tsx 164-183). These are a confirmation prompt and a DELETE request followed by a re-fetch, with no logic of their own.
- JavaScript values of the wrong type are not modelled. Records are typed here, so a non-string `Type` or a `NaN` ID cannot occur. IDs are rendered in plain decimal, so the exponent form JavaScript uses for numbers of 1e21 and above is not modelled.
- Rendering, `useEffect`/`useCallback` wiring, and the disabled state of buttons.
