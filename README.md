# SouqAI core, modelled in Dafny

SouqAI is a Tunisian marketplace. This project models four parts of it and proves properties about them:

- **The AI media service** (`AiMediaService`, from `services/aiMediaService.ts`). It covers:
  - the language clause of the refinement request;
  - what happens to the refinement reply: the text is trimmed, a `` ```json `` fence is stripped, the JSON fields are merged over the draft, and the draft is kept when the reply does not parse;
  - `constructGenPrompt`, which builds the image prompt from the style, the custom scene and the category;
  - the scan of the image-edit reply for the first inline image.
- **The upload wizard** (`MagicUploader`, from `components/MagicUploader.tsx`). It is a class with the component's state as fields and one method per handler. A handler that awaits a call is split at the `await`. `StartX` runs up to the call and returns the request it sends. `FinishX` takes the call's settled outcome. A ghost multiset `inFlight` records the calls that are outstanding. The session invariant `Valid` ties each waiting view to its call, ties the outstanding refinement to the draft it was sent, and guarantees that the publishing view has an image. The model also covers the Skip and Try-Different-Style buttons and how the seller name is resolved at publish.
- **The seller dashboard** (`Dashboard`, from `components/Dashboard.tsx`). It covers deleting a listing, creating an organization, and the view and value totals. The two handlers are split at their `await` in the same way, as `BeginDelete`/`FinishDelete` and `BeginCreateOrg`/`FinishCreateOrg`.
- **The buyer chat** (`HabibiChat`, from `components/HabibiChat.tsx`). It covers:
  - the system instruction built for each language;
  - the welcome message appended on every language change;
  - the `handleSend` protocol, split into `BeginSend` (the guard and the two appended messages), `ReceiveStream` (the `for await` loop over the chunks) and `EndSend` (`catch`/`finally`).

The other modules are as follows:

- `Wrappers` holds `Option` and `Outcome`. A call that failed is `Err(message)`.
- `Strings` holds string helpers:
  - ECMAScript `trim`;
  - ASCII `toLowerCase`;
  - `includes`, which is the `Contains` predicate. The lemma `ContainsAt` ties it to an explicit occurrence index.
- `Types` holds the records of `types.ts`.
- `Scenarios` steps the classes through short sessions taken from the source's own flows:
  - a lamp listing whose refinement call fails, generated in the luxury style and published at 50 TND;
  - a Skip followed by a refinement that arrives late, which keeps the typed price;
  - an image reply whose first blob has no data, which resolves with nothing (`BlobWithoutData`);
  - a review view without an image, from which neither a video nor publishing can start (`ReviewWithoutImage`);
  - a delete answered with an empty error message, which still removes the listing (`EmptyDeleteErrorRemoves`);
  - a language switch on the form before Next, whose refinement request carries the new language (`LanguageSwitchBeforeRefine`);
  - a streamed reply that then fails.

External calls are parameters. Their outcomes are given to the `Finish`/`Receive`/`End` methods, and to the dashboard's `FinishDelete`/`FinishCreateOrg`. The calls are Gemini, Veo, the database, `confirm`, and `JSON.parse`, which is modelled by a `parse` function parameter. Message ids and the texts of the string tables are parameters as well.

JavaScript truthiness is modelled explicitly:

- `Present(o)` means the value is set and non-empty.
- `OrUndefined(s)` models `s || undefined`.
- `views || 0` is `ViewsOrZero`.
- The delete answer's `error` is an optional message, tested with `Present` as `!error` tests it.

Behaviour of the code worth knowing:

- No call is retried. The text, image and chat calls make no API-key check. The video call only asks the AI Studio host to pick a key when none is selected, and does not fail when there is none.
- The image prompt is the identity sentence, then either the custom scene in the custom template, or the preset template with the preset's setting or the category's default setting, and always the fixed quality clause ("seamless composite, photorealistic, 8k"). Nothing else enters it.
- The refinement request asks for 5 tags, but nothing enforces that count. The form has no tags input, and tags are not submitted at publish.
- A failed refinement call propagates out of `refineProductDetails`. Only the wizard swallows it, and it keeps the draft.
- A failed image generation or publish stores the raw error message of the call in `error`. Only the upload form renders `error` (`components/MagicUploader.tsx:231`), so these two failures are never displayed: the session simply returns to the style or review view.
- A reply whose first inline blob has no `data` makes `editProductImage` resolve with `undefined`. The wizard then shows the review view with no image, and the video and publish buttons do nothing (`Scenarios.ReviewWithoutImage`).
- Apart from picking the string table, the wizard uses `lang` only in the refinement request. `lang` is a prop that the navbar's switcher can change while the wizard stays mounted (`MagicUploader.Wizard.SetLang`), so the request carries the language showing when Next is pressed (`Scenarios.LanguageSwitchBeforeRefine`).
- Results that arrive late are not discarded. After Skip, the refinement call is still outstanding. When it settles, it replaces the draft and moves the session to the style view, whatever view is showing. Two image calls can then be in flight at once (`Scenarios.SkipThenLateRefinement`).
- The category menu's "Electronics" lower-cases to "electronics", which does not contain "tech". It therefore gets the plain studio background, not the desk (`AiMediaService.ElectronicsCategoryGetsPlainStudio`).

## Model

| member | source | states |
|---|---|---|
| Strings.Trim | services/aiMediaService.ts:74 | the result is a contiguous piece of the input with only whitespace before and after it |
| Strings.TrimIsSlice | services/aiMediaService.ts:74 | the piece starts where the leading whitespace ends |
| Strings.TrimEnds | services/aiMediaService.ts:74 | a non-empty result neither starts nor ends with whitespace |
| Strings.TrimEmptyIffBlank | components/HabibiChat.tsx:64 | `!s.trim()` holds exactly when every character of `s` is whitespace |
| Strings.TrimUntrimmed | services/aiMediaService.ts:74 | a string with no whitespace at either end is left alone |
| Strings.TrimStart | services/aiMediaService.ts:74 | the result is a suffix of the input, every dropped character is whitespace, and the result does not start with whitespace |
| Strings.TrimEnd | services/aiMediaService.ts:74 | the result is a prefix of the input, every dropped character is whitespace, and the result does not end with whitespace |
| Strings.ToLower | services/aiMediaService.ts:103 | lower-casing keeps the length and lowers each character on its own |
| Strings.ContainsAt | services/aiMediaService.ts:126-127 | `includes` holds exactly when the substring occurs at some index |
| Strings.NoLeadNoContains | services/aiMediaService.ts:126-127 | a string in which the first character of the substring never occurs does not include it |
| Types.OrUndefined | components/MagicUploader.tsx:119 | `s \|\| undefined` is absent exactly for "" and otherwise carries `s` |
| AiMediaService.LangInstruction | services/aiMediaService.ts:28-30 | French and Arabic get their own clause; every other language gets English |
| AiMediaService.LangInstructionInjective | services/aiMediaService.ts:28-30 | different languages get different clauses |
| AiMediaService.Unfence | services/aiMediaService.ts:76-77 | a text that starts with the opening fence loses it, and also loses a closing fence at its very end; any other text is unchanged |
| AiMediaService.StripFence | services/aiMediaService.ts:74-78 | the same characterization, applied to the trimmed reply |
| AiMediaService.StripFenceOfWrapped | services/aiMediaService.ts:74-78 | JSON wrapped in a json fence comes back exactly |
| AiMediaService.StripFenceUnfenced | services/aiMediaService.ts:74-78 | an unfenced reply is only trimmed |
| AiMediaService.MergeRefinement | services/aiMediaService.ts:82-88 | the refined draft keeps the price and takes its title, description, category and tags from the reply |
| AiMediaService.RefineProductDetails | services/aiMediaService.ts:73-95 | a failed call fails, an empty reply fails with "Failed to refine product details", and any other reply is unfenced and parsed, then merged or else the draft is returned as it was |
| AiMediaService.RefineKeepsPrice | services/aiMediaService.ts:82-88 | a successful refinement never changes the price |
| AiMediaService.RefineParseFailureFallsBack | services/aiMediaService.ts:89-93 | a reply that does not parse leaves the draft exactly as it was |
| AiMediaService.RefineReadsInsideFence | services/aiMediaService.ts:74-88 | a fenced reply is parsed from the content inside the fence |
| AiMediaService.PresetSetting | services/aiMediaService.ts:111-123 | each of the four preset styles gets its own setting, and the setting identifies the style |
| AiMediaService.CategorySetting | services/aiMediaService.ts:124-128 | the desk exactly when the lower-cased category includes "tech"; the street exactly when it includes "fashion" but not "tech"; the plain studio exactly when it includes neither |
| AiMediaService.ConstructGenPrompt | services/aiMediaService.ts:102-132 | every prompt opens with the identity sentence and keeps the object as it is |
| AiMediaService.CustomSceneEmbedded | services/aiMediaService.ts:105-107 | with the custom style and a non-empty scene, the prompt places the object in that scene, and it is not the preset template |
| AiMediaService.CustomWithoutSceneUsesCategory | services/aiMediaService.ts:105-128 | the custom style with no scene or an empty one falls through to the category default |
| AiMediaService.PresetIgnoresCategory | services/aiMediaService.ts:111-123 | a preset style gives its fixed setting, whatever the category and the scene |
| AiMediaService.CategoryDefault | services/aiMediaService.ts:124-128 | any other style picks the desk when the lower-cased category contains "tech", otherwise the street when it contains "fashion", and otherwise the plain studio |
| AiMediaService.FashionCategoryGetsStreet | services/aiMediaService.ts:127 | the "Fashion" category gets the street setting |
| AiMediaService.ElectronicsCategoryGetsPlainStudio | services/aiMediaService.ts:126-128 | the "Electronics" category gets the plain studio, not the desk |
| AiMediaService.LowerMenuCategories | services/aiMediaService.ts:103 | the menu's "Fashion" and "Electronics" lower-case to "fashion" and "electronics" |
| AiMediaService.NotContainsTech | services/aiMediaService.ts:126 | neither "fashion" nor "electronics" includes "tech" |
| AiMediaService.NotContainsFashion | services/aiMediaService.ts:127 | "electronics" does not include "fashion" |
| AiMediaService.EditProductImage | services/aiMediaService.ts:150-155 | a failed call fails; otherwise the call resolves exactly when some part has an inline blob, with the blob's optional data of the first such part (nothing when that blob has no data), and otherwise fails with "No image generated" |
| MagicUploader.FindOrg | components/MagicUploader.tsx:113 | `find` is absent exactly when no organization has the id, and otherwise returns the first one that does |
| MagicUploader.SellerName | components/MagicUploader.tsx:112-114 | the seller is the user with no organization selected or none matching; otherwise it is the name of the first matching organization, or the user's name when that name is empty |
| MagicUploader.SellerNameOfFirstMatch | components/MagicUploader.tsx:112-114 | with an organization selected, the first match's non-empty name is the seller |
| MagicUploader.BuildListing | components/MagicUploader.tsx:116-126 | the listing carries the draft's title, description, category and price in TND, the user's id, the resolved seller name, and the organization id exactly when one is selected |
| MagicUploader.Wizard.constructor | components/MagicUploader.tsx:18-41 | a session starts on the empty form with the "studio" style, no image and no error |
| MagicUploader.Wizard.SetLang | App.tsx:110-119 | a language switch changes only the wizard's language; the session and its outstanding calls carry on |
| MagicUploader.Wizard.LoadOrgs | components/MagicUploader.tsx:44-47 | only the organizations change |
| MagicUploader.Wizard.SelectImage | components/MagicUploader.tsx:49-56 | only the original image changes |
| MagicUploader.Wizard.EditDraft | components/MagicUploader.tsx:177-222 | only the draft changes, and only on the form |
| MagicUploader.Wizard.SelectOrg | components/MagicUploader.tsx:162-175 | only the selected organization changes |
| MagicUploader.Wizard.StartRefine | components/MagicUploader.tsx:58-69 | the refinement starts exactly when there is an image, a title and a non-zero price, and then sends the image, the draft and the language showing at that moment; otherwise only the validation error is set |
| MagicUploader.Wizard.FinishRefine | components/MagicUploader.tsx:69-77 | the draft becomes what `refineProductDetails` gives for the reply and the draft that was sent, or stays on a failure; the price never changes, and either way the session moves to the style view |
| MagicUploader.Wizard.Skip | components/MagicUploader.tsx:253 | moves to the style view and leaves the refinement outstanding |
| MagicUploader.Wizard.SelectStyle | components/MagicUploader.tsx:280-304 | only the style changes |
| MagicUploader.Wizard.SetCustomPrompt | components/MagicUploader.tsx:307-314 | only the custom scene changes |
| MagicUploader.Wizard.StartGenerateImage | components/MagicUploader.tsx:80-85 | without an image nothing happens; otherwise the generating view shows and the prompt sent is built from the draft's category, the style and the scene |
| MagicUploader.Wizard.FinishGenerateImage | components/MagicUploader.tsx:85-91 | what the call resolved with, possibly nothing, becomes the image and is reviewed; a failure sets the call's error, keeps any earlier image and returns to the style view |
| MagicUploader.Wizard.StartGenerateVideo | components/MagicUploader.tsx:94-98 | without an image nothing happens; otherwise the video is marked busy and the image is sent |
| MagicUploader.Wizard.FinishGenerateVideo | components/MagicUploader.tsx:98-105 | a video is stored on success; busy clears either way, and the step never changes |
| MagicUploader.Wizard.StartPublish | components/MagicUploader.tsx:108-126 | without an image nothing happens; otherwise publishing shows and one request is sent, holding the built listing, the image, and the video or nothing |
| MagicUploader.Wizard.FinishPublish | components/MagicUploader.tsx:126-133 | done on success; on failure the error is set and the review view shows again |
| MagicUploader.Wizard.TryDifferentStyle | components/MagicUploader.tsx:395-400 | goes back to the style view and keeps the image |
| Scenarios.BlobWithoutData | services/aiMediaService.ts:150-153 | a reply whose text part is followed by a blob without data resolves with nothing rather than failing |
| Dashboard.RemoveById | components/Dashboard.tsx:40 | the filter keeps exactly the listings with another id, and never makes the list longer |
| Dashboard.RemoveByIdConcat | components/Dashboard.tsx:40 | filtering keeps the order |
| Dashboard.RemoveByIdAbsent | components/Dashboard.tsx:40 | a list without the id is unchanged |
| Dashboard.RemoveByIdIdempotent | components/Dashboard.tsx:40 | deleting the same id twice removes nothing more |
| Dashboard.TotalViews | components/Dashboard.tsx:59 | the view total is never negative when no view count is negative |
| Dashboard.TotalValue | components/Dashboard.tsx:60 | the value total is never negative when no price is negative |
| Dashboard.TotalViewsConcat | components/Dashboard.tsx:59 | the view total distributes over concatenation |
| Dashboard.TotalValueConcat | components/Dashboard.tsx:60 | the value total distributes over concatenation |
| Dashboard.TotalValueAfterDelete | components/Dashboard.tsx:40-60 | when no price is negative, a delete never raises the value total |
| Dashboard.Dashboard.constructor | components/Dashboard.tsx:13-18 | a dashboard starts empty and loading |
| Dashboard.Dashboard.LoadData | components/Dashboard.tsx:24-33 | the listings and organizations are replaced and loading ends |
| Dashboard.Dashboard.BeginDelete | components/Dashboard.tsx:35-38 | a declined dialog sends nothing and changes nothing; otherwise the row is marked as being deleted and its id is sent |
| Dashboard.Dashboard.FinishDelete | components/Dashboard.tsx:38-44 | the listings with the id go when the answer has no error or an empty error message, and all stay when it has a non-empty message; no row is left marked as being deleted |
| Scenarios.EmptyDeleteErrorRemoves | components/Dashboard.tsx:39-40 | a delete answered with an empty error message removes the listing |
| Dashboard.Dashboard.SetNewOrgName | components/Dashboard.tsx:195 | only the name changes |
| Dashboard.Dashboard.SetOrgModal | components/Dashboard.tsx:75 | only the form's visibility changes |
| Dashboard.Dashboard.BeginCreateOrg | components/Dashboard.tsx:48-51 | a blank name sends nothing; otherwise the untrimmed name is sent; nothing visible changes |
| Dashboard.Dashboard.FinishCreateOrg | components/Dashboard.tsx:51-56 | a created organization is appended while the name clears and the form closes; no organization changes nothing |
| HabibiChat.LanguageClause | components/HabibiChat.tsx:26-32 | Arabic gets the Derja clause, French the French clause, and English the mixed clause, each exactly for its language |
| HabibiChat.SystemInstruction | components/HabibiChat.tsx:25-33 | the instruction is the persona, then the language's clause, then the goal |
| HabibiChat.SystemInstructionInjective | components/HabibiChat.tsx:26-32 | different languages get different instructions |
| HabibiChat.ShowReply | components/HabibiChat.tsx:88-92 | every message with the reply id shows the text and stops thinking; every other message is unchanged |
| HabibiChat.MarkFailed | components/HabibiChat.tsx:97-101 | every thinking message shows the error and stops thinking; every other message is unchanged |
| HabibiChat.ShowReplyOverwrites | components/HabibiChat.tsx:86-92 | showing a later accumulation replaces the earlier one |
| HabibiChat.MarkFailedIdempotent | components/HabibiChat.tsx:97-101 | a second failure changes nothing |
| HabibiChat.FailureKeepsPartialReply | components/HabibiChat.tsx:86-101 | a failure after part of the reply was shown keeps that part |
| HabibiChat.Streamed | components/HabibiChat.tsx:84-93 | streaming keeps the number of messages |
| HabibiChat.StreamedShowsReply | components/HabibiChat.tsx:84-93 | once any chunk carried text, the reply message shows everything accumulated and stops thinking; every other message, and every message when no chunk carried text, is unchanged |
| HabibiChat.StreamedStep | components/HabibiChat.tsx:84-93 | a chunk with text shows the new accumulation; an empty chunk changes nothing |
| HabibiChat.StreamedNext | components/HabibiChat.tsx:84-93 | one pass of the loop moves the accumulated text and the message list on by exactly one chunk |
| HabibiChat.StreamedGrows | components/HabibiChat.tsx:84-93 | streaming keeps every message in place, with its id and role |
| HabibiChat.Chat.constructor | components/HabibiChat.tsx:13-17 | a chat starts with the one welcome message, id "0", and no session |
| HabibiChat.Chat.OpenSession | components/HabibiChat.tsx:22-53 | a new session gets the language's instruction, the welcome is appended, and nothing earlier is lost |
| HabibiChat.Chat.SetInput | components/HabibiChat.tsx:195-200 | only the input changes, and only while no reply is loading |
| HabibiChat.Chat.BeginSend | components/HabibiChat.tsx:63-81 | a send happens exactly for non-blank text, when not loading and with a session; it appends the user's message and then an empty thinking reply, clears the input, and starts loading |
| HabibiChat.Chat.ReceiveStream | components/HabibiChat.tsx:83-94 | the accumulated reply is the concatenation of the chunks in order, and the message list is `Streamed` of the one before |
| HabibiChat.Chat.EndSend | components/HabibiChat.tsx:95-104 | on failure the thinking messages show the error; loading ends either way and nothing is removed |

## Left out

- The Gemini and Veo calls themselves. Their replies are parameters of the model.
- `JSON.parse` and the response schema. Parsing is a function parameter, and a parsed reply is assumed to carry all four fields.
- Most of the refinement prompt's wording. The model has its language clause only, because the prompt is sent but never read back.
- `generateProductVideo`, with its polling and download link. Only its settled result enters the wizard.
- `fileToBase64`, the `File` object and the file input. `SelectImage` receives the encoded photo.
- `dbService`, `confirm`, `alert` and `console`, whose results are parameters. The `setTimeout(onComplete, 2000)` after publishing is not modelled either.
- `Date.now()` message ids and timestamps. Ids are parameters, and timestamps are dropped.
- Prices are integers. `Number(item.price)` on a fractional or non-numeric price is not modelled.
- Rendering is not modelled: the JSX views and scrolling. `handleKeyDown` and the chat's suggestion buttons only call `handleSend`, which is `BeginSend` given their text.
- `Strings.ToLower`: lowers ASCII letters only, while `toLowerCase` also folds non-ASCII letters; the categories of the menu are ASCII.
- `AiMediaService.CustomSceneEmbedded`: states that the custom prompt is not of the preset template's form, rather than that it contains none of the preset's sentences. The scene is free text, so it may contain any sentence.
- `HabibiChat.SystemInstruction`: "exactly one language clause" is stated as the decomposition into persona, clause and goal, together with `SystemInstructionInjective`, rather than by counting occurrences.
- `HabibiChat.Chat.Valid`: does not say that the live session's instruction is the one for the chat's language; `OpenSession` states it in its own contract.
- `MagicUploader.Wizard.EditDraft`: the form edits are one method taking the whole edited draft, not one handler per input.
- The `inFlight` multiset is ghost. It says which calls are outstanding, not in which order they settle; every order is allowed. The dashboard's `deletesInFlight` and `createsInFlight` are the same kind of record for its two calls.
- `HabibiChat.Chat.ReceiveStream`: the list is replaced once, after the last chunk, by the list the per-chunk updates produce. The renders between two chunks are not modelled.
- `Strings.Trim`: its contract gives the piece and the whitespace around it; that the piece is the largest one follows from `TrimEnds` rather than being stated in one clause.
