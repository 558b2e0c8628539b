# 10x-flashcards in Dafny

10x-flashcards is a web application for making study flashcards:

- A user pastes a text and receives AI-generated proposals.
- The user reviews the proposals, editing, accepting or rejecting each one.
- Accepted proposals become stored flashcards, alongside cards written by hand.
- The user can browse the collection, learn from it, and see statistics about how cards were made.

This project models the application's rules and proves properties of them. One Dafny module corresponds to each source file of the application's logic. A few shared modules support them:

- `Wrappers`: Option and Result.
- `Strings`: the JavaScript string built-ins the code uses: trim, split, join, includes, startsWith.
- `Json`: JSON values as JSON.parse yields them, property access, truthiness, and an abstract stringify/parse pair.
- `Http`: a fetch reply as a status and a body, or a rejection.
- `Types`: the DTOs and commands of src/types.ts.
- `Uuid`, `ZodIssues` and `CreatedOrder`.
- `Database`: the two tables the server reads and writes.

The modules, by area:

- **Server schemas.** `FlashcardSchema`, `FormSchema`, `GenerationSchema` and `StatsSchema` model the zod schemas as parse functions over JSON. Each maps a value either to the parsed value or to the list of issues.
- **Server services.**
  - `FlashcardService` is a class over the in-memory tables. `createFlashcard` enforces the acceptance ceiling of a generation and bumps exactly one counter. The proofs show that sequential creates keep every generation within its ceiling.
  - `GenerationService` writes the generation record.
  - `StatsService` aggregates a user's statistics.
  - `OpenRouter` (the OpenRouterService class) builds the chat-completion payload and validates the provider's answer, all or nothing.
- **Routes.** `FlashcardsRoute` and `GenerateRoute` are the decision chains, from authentication, validation and service outcome to status, code and body.
- **Client hooks and components.** These are classes whose fields are the React state cells. Each method is proved against a function of the old state:
  - `Proposals`: the proposal review.
  - `LearnSession` and `KeyboardShortcuts`.
  - `FlashcardGrid`, `BrowseContent`, `FlashcardCard` and `StatsPanel`.
  - `UseGeneration`, `InputForm` and `CharacterCounter`.
  - `ClientService` and `FlashcardForm`: the error round trip from the client service to the form.
  - `ConfirmModal`, `LoginForm` and `ResetPasswordForm`.
- **Utilities.**
  - `ApiErrors`: the APIError classes and createAPIError.
  - `Cookies`: parseCookieHeader, which reads the Cookie header loosely, after section 4.2.1 of RFC 6265.
  - `Logger`: formatMessage.
  - `Middleware`: the request routing decision.

Each client rule is connected to the server rule it mirrors. `FlashcardCard.AgreesWithServer`, `InputForm.BoundsAgree`, `FormSchema.AgreesWithUpdateSchema` and `Proposals.ValidateAgreesWithServer` prove that the client and the server accept the same inputs. `FlashcardForm.SubmittedCommandAccepted`, `Proposals.SentCommandAccepted` and `InputForm.SubmittedTextAccepted` prove that every request the client sends passes the server's schema.

Some behaviour of the code is worth stating outright, because a reader might expect otherwise:

- `GenerationService` never calls the AI provider. It returns five fixed proposals built from the input text.
- `GenerationService` writes no generation record on failure. A failed insert stores nothing.
- The acceptance-ceiling failure is answered with 500 INTERNAL_ERROR, not a 400-class status.
- The generate route never answers 401. The owner of a new generation is always the configured default user, never the session's.
- The generation text's length is checked before trimming, so the parsed text may be shorter than 1000 characters.

## Model

| member | source | states |
|---|---|---|
| Types.ParseMethod | src/types.ts:16 | a string names a creation method exactly when it is "manual", "ai_full" or "ai_edited", and the method read back has that name |
| Types.MethodNameRoundTrip | src/types.ts:16 | every creation method's name parses back to the same method |
| Types.MethodNameInjective | src/types.ts:16 | two methods have the same name exactly when they are the same method |
| Types.CommandToJson | src/types.ts:28-42 | a create command's JSON has front_content, back_content and creation_method, and generation_id exactly for an accepted AI card; it has no repeated member |
| Types.UpdateToJson | src/types.ts:47-50 | an update command's JSON carries its two contents |
| Types.FlashcardToJson | src/types.ts:8-11 | a flashcard DTO's JSON carries its id, both contents and its creation method's name |
| Types.StatsToJson | src/types.ts:88-93 | the statistics JSON carries the four counts under their member names and has no repeated member |
| Uuid.UuidGroups | src/lib/schemas/flashcard.schema.ts:22 | a string in UUID form is five hexadecimal groups of 8, 4, 4, 4 and 12 digits joined by hyphens |
| Uuid.JoinedIsUuid | src/lib/schemas/flashcard.schema.ts:22 | five hexadecimal groups of those lengths joined by hyphens are in UUID form, and each group is read back from its position |
| ZodIssues.LengthChecks | src/lib/schemas/flashcard.schema.ts:5-8 | `.min(min).max(max)` on a string reports nothing exactly when its length is within the bounds, the short message first when it is too short and the long one last when it is too long, and at most one message for sane bounds |
| ZodIssues.StringMember | src/lib/schemas/flashcard.schema.ts:11-15 | an object member passes exactly when it is present, a string and passes its check; every issue is at that member; a missing member gives exactly the "required" issue |
| ZodIssues.Messages | src/pages/api/flashcards/index.ts:67-84 | the messages reported at one path are non-empty exactly when some issue has that path, and the first of them is the message of such an issue |
| ZodIssues.FirstMessage | src/pages/api/flashcards/index.ts:67-84 | the first message at a path is the message of the first issue at that path |
| ZodIssues.FieldOrder | src/pages/api/flashcards/index.ts:67-84 | the members with issues are listed once each, and a member is listed exactly when some issue names it |
| ZodIssues.Format | src/pages/api/flashcards/index.ts:67-84 | `error.format()` is an object whose first member is `_errors` with the top-level messages, followed by one node per member with issues |
| ZodIssues.FormatDistinct | src/pages/api/flashcards/index.ts:67-84 | when no issue is at a member called `_errors`, no two members of the formatted object share a name |
| ZodIssues.FormatGet | src/pages/api/flashcards/index.ts:67-84 | every member with issues can be looked up in the formatted object and gives that member's node |
| ZodIssues.FormatWellFormed | src/pages/api/flashcards/index.ts:67-84 | the formatted object is a value JSON.parse can produce (no repeated member names at any depth) |
| ZodIssues.FormatOfFailure | src/pages/api/flashcards/index.ts:67-84 | a failed parse's format has a top-level message or at least one member node |
| FlashcardSchema.ContentMessages | src/lib/schemas/flashcard.schema.ts:5-8 | content passes exactly when its length is in 2..200; a shorter one gets exactly "Content must be at least 2 characters long", a longer one exactly "Content must not exceed 200 characters" |
| FlashcardSchema.ContentMember | src/lib/schemas/flashcard.schema.ts:12-13 | a content member reports nothing exactly when it is a string of valid content, and all its issues are at that member |
| FlashcardSchema.GenerationIdMember | src/lib/schemas/flashcard.schema.ts:22 | generation_id reports nothing exactly when it is a string in UUID form, and all its issues are at generation_id |
| FlashcardSchema.ParseCreate | src/lib/schemas/flashcard.schema.ts:11-29 | the discriminated union accepts exactly the bodies whose creation_method is "manual" with valid contents, or "ai_full"/"ai_edited" with valid contents and a UUID generation_id; the command it returns carries the body's values; a rejection has at least one issue |
| FlashcardSchema.UnknownMethodRejected | src/lib/schemas/flashcard.schema.ts:26-29 | an object whose creation_method is none of the three names gets only the discriminator issue |
| FlashcardSchema.CommandRoundTrip | src/lib/schemas/flashcard.schema.ts:11-29 | a command's JSON parses back to the same command exactly when its contents are valid (and its generation id a UUID for an AI card) |
| FlashcardSchema.ManualRoundTrip | src/lib/schemas/flashcard.schema.ts:11-29 | a manual command's JSON parses back to the same command exactly when both sides have 2 to 200 characters |
| FlashcardSchema.AiRoundTrip | src/lib/schemas/flashcard.schema.ts:11-29 | an AI command's JSON parses back to the same command, method included, exactly when both sides have 2 to 200 characters and the generation id is a UUID |
| FlashcardSchema.ParseUpdate | src/lib/schemas/flashcard.schema.ts:32-35 | an update passes exactly when both members are valid content, and the command carries them |
| FlashcardSchema.ParseFlashcardId | src/lib/schemas/flashcard.schema.ts:38 | an id passes exactly when it is in UUID form and is returned unchanged; otherwise the one issue is "Invalid flashcard ID format" |
| FormSchema.FormIssues | src/schemas/flashcard.schema.ts:3-6 | the form has no issue exactly when both lengths are in 2..200, with "Must be at least 2 characters" / "Must be no more than 200 characters" on the offending field |
| FormSchema.AgreesWithUpdateSchema | src/schemas/flashcard.schema.ts:4-5 | the client form accepts exactly the pairs the server's update schema accepts |
| FormSchema.IssuesOnFields | src/schemas/flashcard.schema.ts:3-6 | every form issue is on front_content or back_content |
| GenerationSchema.TextMessages | src/schemas/generation.schema.ts:7-10 | the text passes exactly when its raw length is in 1000..10000 |
| GenerationSchema.CountMessages | src/schemas/generation.schema.ts:12-16 | the card count passes exactly when it is an integer in 1..20; a fraction gets the integer message first |
| GenerationSchema.CountMember | src/schemas/generation.schema.ts:12-17 | number_of_cards passes exactly when it is absent or an integer number in 1..20 |
| GenerationSchema.ParseGenerate | src/schemas/generation.schema.ts:6-18 | the schema accepts exactly a string text of raw length 1000..10000 and a valid or absent count; the parsed text is the trimmed input, the count is 1..20 and defaults to 5 |
| GenerationSchema.TextOnly | src/schemas/generation.schema.ts:11-17 | a body with only a text of valid length parses to the trimmed text and 5 cards |
| GenerationSchema.TrimAfterLengthCheck | src/schemas/generation.schema.ts:7-11 | text padded with whitespace is measured with the padding and parses to the text without it |
| GenerationSchema.ParsedTextNotLonger | src/schemas/generation.schema.ts:11 | the parsed text is never longer than the text sent |
| GenerationSchema.ShortAfterTrim | src/schemas/generation.schema.ts:7-11 | one space followed by 999 letters is accepted and parses to 999 characters, under the stated minimum |
| StatsSchema.CountMember | src/lib/schemas/stats.schema.ts:4-7 | one count passes exactly when it is present, a number, an integer and not negative |
| StatsSchema.ParseStats | src/lib/schemas/stats.schema.ts:3-8 | the schema accepts exactly objects whose four counts pass; the parsed counts are non-negative and re-encode to the body's counts |
| StatsSchema.StatsRoundTrip | src/lib/schemas/stats.schema.ts:3-8 | statistics encode and parse back to themselves exactly when all four counts are non-negative |
| CreatedOrder.Insert | src/components/browse/FlashcardGrid.tsx:58-62 | inserting a card into a list sorted by created_at keeps it sorted and adds exactly that card |
| CreatedOrder.SortByCreated | src/lib/services/flashcard.service.ts:20 | sorting by created_at in either direction returns a sorted permutation of the input |
| CreatedOrder.InsertStable | src/components/browse/FlashcardGrid.tsx:58-62 | inserting a card appends it to the cards with the same timestamp and leaves every other timestamp's cards as they were |
| CreatedOrder.SortStable | src/components/browse/FlashcardGrid.tsx:58-62 | the sort is stable: for every timestamp, the cards with that timestamp come out in their input order |
| CreatedOrder.SortedUnique | src/lib/services/flashcard.service.ts:20 | with distinct timestamps there is only one sorted order: two sorted permutations of the same cards are equal |
| CreatedOrder.SameHead | src/lib/services/flashcard.service.ts:20 | two sorted permutations of cards with distinct timestamps start with the same card |
| Database.AiCountAppend | src/lib/services/flashcard.service.ts:76-84 | appending a row raises a user's AI card count by one exactly when the row is that user's AI card |
| Database.SumAcceptedAppend | src/lib/services/flashcard.service.ts:68-69 | appending a generation adds its accepted counters (null as 0) to its owner's sum |
| Database.SumTotalAppend | src/lib/services/flashcard.service.ts:70 | appending a generation adds its total_generated (null as 0) to its owner's sum |
| Database.SumAcceptedUpdate | src/lib/services/flashcard.service.ts:89-102 | replacing one generation by one of the same owner changes that owner's counter sum by the difference and no other user's |
| Database.SumTotalUpdate | src/lib/services/flashcard.service.ts:89-102 | a counter update that keeps total_generated keeps every user's total |
| Database.CeilingSums | src/lib/services/flashcard.service.ts:71-73 | when every generation is within its ceiling, a user's accepted sum is at most the user's generated total |
| Database.Find | src/lib/services/flashcard.service.ts:30-35 | the search finds a position exactly when some element satisfies the filter, and it finds the first such element |
| Database.FindGeneration | src/lib/services/flashcard.service.ts:59-64 | the lookup by id and owner finds a row exactly when one exists, and the row it finds matches both |
| Database.FindFlashcard | src/lib/services/flashcard.service.ts:30-35 | the lookup by id and owner finds a row exactly when one exists, and the row it finds matches both |
| Database.Without | src/lib/services/flashcard.service.ts:134 | the delete keeps exactly the rows that do not match both id and owner |
| Database.AiCountWithout | src/lib/services/flashcard.service.ts:134 | a delete never raises any user's AI card count |
| Database.AiCountUpdate | src/lib/services/flashcard.service.ts:111-118 | replacing a row by one of the same owner and method keeps every user's AI card count |
| Database.Tables.Empty | src/lib/services/flashcard.service.ts:10 | the empty tables are valid |
| FlashcardService.OwnedDTOs | src/lib/services/flashcard.service.ts:16-19 | a DTO is listed exactly when it is the projection of a row owned by the caller |
| FlashcardService.SetAcceptedFull | src/lib/services/flashcard.service.ts:91-94 | the update sets accepted_full on the rows with that id and leaves every other row alone |
| FlashcardService.SetAcceptedEdited | src/lib/services/flashcard.service.ts:97-100 | the update sets accepted_edited on the rows with that id and leaves every other row alone |
| FlashcardService.SetAcceptedFullAt | src/lib/services/flashcard.service.ts:91-94 | with unique ids the update by id changes exactly the row found for the caller |
| FlashcardService.SetAcceptedEditedAt | src/lib/services/flashcard.service.ts:97-100 | with unique ids the update by id changes exactly the row found for the caller |
| FlashcardService.ForeignGenerationRejected | src/lib/services/flashcard.service.ts:57-67 | an AI accept naming a generation the caller does not own fails with "Invalid or unauthorized generation ID" and changes nothing |
| FlashcardService.CeilingRejected | src/lib/services/flashcard.service.ts:68-73 | when accepted_full + accepted_edited + 1 exceeds total_generated (nulls as 0) the create fails with "Cannot accept more flashcards than generated" before any insert or counter change |
| FlashcardService.AcceptBumpsOneCounter | src/lib/services/flashcard.service.ts:89-102 | a successful ai_full accept raises accepted_full of that generation by exactly one and changes nothing else in the table; ai_edited likewise |
| FlashcardService.Bumped | src/lib/services/flashcard.service.ts:88-101 | raising one counter of a generation raises its accepted total by one and keeps its id, owner and total_generated |
| FlashcardService.CreateOutcomes | src/lib/services/flashcard.service.ts:50-106 | after a successful AI accept the card table gains the new row and only the found generation, which was under its ceiling, is bumped; after any other outcome the generations are unchanged and the card table gains the row or nothing |
| FlashcardService.ManualCreateLeavesGenerations | src/lib/services/flashcard.service.ts:57-82 | a manual create never touches the generations table; the flashcards table gains at most the new row, which is owned by the caller and has no generation_id |
| FlashcardService.CreateKeepsValid | src/lib/services/flashcard.service.ts:71-102 | every create, succeeding or failing at any step, keeps the ids unique and every generation within accepted_full + accepted_edited ≤ total_generated |
| FlashcardService.CreateKeepsAccounted | src/lib/services/flashcard.service.ts:76-102 | when the counter write succeeds, a create adds to a user's AI cards exactly what it adds to the user's accepted counters |
| FlashcardService.CreateKeepsInvariants | src/lib/services/flashcard.service.ts:50-106 | a create keeps the tables valid and, when the counter write succeeds, keeps every user whose counters covered their AI cards covered |
| FlashcardService.CreateFailsCleanly | src/lib/services/flashcard.service.ts:65-86 | a create that fails before its counter write leaves both tables as they were |
| FlashcardService.Service.constructor | src/lib/services/flashcard.service.ts:10 | the service works on the tables it is given |
| FlashcardService.Service.ListFlashcards | src/lib/services/flashcard.service.ts:15-24 | a database error becomes "Failed to fetch flashcards: …"; otherwise the result is exactly the caller's cards, newest first |
| FlashcardService.Service.GetFlashcard | src/lib/services/flashcard.service.ts:29-45 | a database error becomes "Failed to fetch flashcard: …"; no row with that id and owner gives "Flashcard not found"; otherwise a matching row is returned, and with unique ids it is the one row with that id and owner |
| FlashcardService.Service.CreateFlashcard | src/lib/services/flashcard.service.ts:50-106 | the result and the new tables are those of the create specification, step by step with the counters read into locals first; the tables stay valid and, when the counter write succeeds, accounted |
| FlashcardService.Service.UpdateFlashcard | src/lib/services/flashcard.service.ts:111-128 | a database error changes nothing; no matching row gives "Flashcard not found"; otherwise exactly that row gets the new contents and is returned; generations are untouched |
| FlashcardService.Service.DeleteFlashcard | src/lib/services/flashcard.service.ts:133-137 | a database error changes nothing; otherwise exactly the rows with that id and owner are removed, and a missing row is not an error |
| FlashcardService.WithoutKeepsUnique | src/lib/services/flashcard.service.ts:134 | a delete keeps the flashcard ids unique |
| FlashcardsRoute.PlanGet | src/pages/api/flashcards/index.ts:13-26 | GET answers 401 UNAUTHORIZED without calling the service exactly when there is no user or an empty id; otherwise it lists the user's cards |
| FlashcardsRoute.FinishGet | src/pages/api/flashcards/index.ts:28-47 | a listed result is 200 with the cards wrapped as {flashcards}; a service failure is 500 INTERNAL_ERROR "Internal server error" |
| FlashcardsRoute.PlanPost | src/pages/api/flashcards/index.ts:55-87 | no user gives 401 without reading the body; an unreadable body gives 500; the service is called exactly when the body passes createFlashcardSchema, with the parsed command and the user's id; a failing body gives 400 VALIDATION_ERROR with the formatted issues |
| FlashcardsRoute.FinishPost | src/pages/api/flashcards/index.ts:86-123 | a created card is 201 with its JSON; the status is 400 INVALID_GENERATION exactly for the unowned-generation error; every other failure is 500 INTERNAL_ERROR |
| FlashcardsRoute.CeilingIsInternalError | src/pages/api/flashcards/index.ts:111-122 | exceeding the acceptance ceiling is answered as an internal error |
| FlashcardsRoute.HandleGet | src/pages/api/flashcards/index.ts:11-48 | the response is the plan's reply, or the finish of the service's list for the planned user |
| FlashcardsRoute.HandlePost | src/pages/api/flashcards/index.ts:53-124 | the response is the plan's reply with the tables unchanged, or the finish of createFlashcard with the tables it leaves; the tables stay valid |
| Proposals.FieldError | src/hooks/useFlashcardProposals.ts:103-113 | one field passes exactly when its length is in 2..200; under 2 gives "Enter at least 2 characters", over 200 "Text cannot exceed 200 characters" |
| Proposals.ValidateProposal | src/hooks/useFlashcardProposals.ts:100-116 | no errors exactly when both lengths are in 2..200; otherwise each field carries its own message independently |
| Proposals.ValidateAgreesWithServer | src/hooks/useFlashcardProposals.ts:100-116 | the proposal check accepts exactly what the server's content rule accepts on both fields |
| Proposals.ProposalIdInjective | src/hooks/useFlashcardProposals.ts:24 | "proposal-i" ids of different positions differ |
| Proposals.Initialize | src/hooks/useFlashcardProposals.ts:21-28 | the list keeps the order and content of the input; item i has id "proposal-i", is neither edited nor saving and has no errors |
| Proposals.InitializedIdsUnique | src/hooks/useFlashcardProposals.ts:22-27 | the initialised ids are pairwise distinct |
| Proposals.Edited | src/hooks/useFlashcardProposals.ts:35-43 | an edit merges the supplied fields over the old ones, keeps the id and the saving flag, sets isEdited and recomputes the errors from the merged contents |
| Proposals.UpdateItems | src/hooks/useFlashcardProposals.ts:31-47 | updateProposal changes only the items with that id; every other item is unchanged and the length is kept |
| Proposals.SetErrors | src/hooks/useFlashcardProposals.ts:57 | only the items with that id get the errors; the rest are unchanged |
| Proposals.SetSaving | src/hooks/useFlashcardProposals.ts:61 | only the items with that id get the saving flag; the rest are unchanged |
| Proposals.Without | src/hooks/useFlashcardProposals.ts:91-93 | the filter keeps exactly the items with another id, never lengthens the list, and is the identity when the id is absent |
| Proposals.WithoutAppend | src/hooks/useFlashcardProposals.ts:91-93 | the filter keeps order: filtering a concatenation filters each part in place |
| Proposals.WithoutSingle | src/hooks/useFlashcardProposals.ts:91-93 | a single item is dropped exactly when it has that id |
| Proposals.WithoutCounts | src/hooks/useFlashcardProposals.ts:91-93 | every copy of an item with another id is kept and every copy with that id is dropped |
| Proposals.WithoutIdempotent | src/hooks/useFlashcardProposals.ts:91-93 | rejecting twice equals rejecting once |
| Proposals.WithoutRemovesOne | src/hooks/useFlashcardProposals.ts:83 | with unique ids, removing a present id shortens the list by exactly one |
| Proposals.Find | src/hooks/useFlashcardProposals.ts:52-53 | the search finds an item exactly when one has that id, and it is the first such item |
| Proposals.AcceptCommand | src/hooks/useFlashcardProposals.ts:64-69 | the command carries the item's contents and the current generation id, with creation_method ai_edited exactly when the item was edited |
| Proposals.AcceptNoOp | src/hooks/useFlashcardProposals.ts:50-53 | without a generation id, or for an absent id, acceptProposal sends nothing and changes nothing |
| Proposals.AcceptInvalid | src/hooks/useFlashcardProposals.ts:55-59 | an invalid item only gets its errors attached: nothing is sent, the length is kept and every other item is unchanged |
| Proposals.AcceptValid | src/hooks/useFlashcardProposals.ts:61-88 | a valid item is sent as its accept command; an ok reply removes exactly that item, any other outcome keeps it with isSaving false and no other change |
| Proposals.SavedRemoved | src/hooks/useFlashcardProposals.ts:60-82 | with unique ids, marking an item as saving and then filtering its id out leaves one item fewer, holding exactly the other items |
| Proposals.SavingCleared | src/hooks/useFlashcardProposals.ts:60-85 | marking an item as saving and then as not saving leaves it with isSaving false and every other item unchanged |
| Proposals.SentCommandAccepted | src/hooks/useFlashcardProposals.ts:64-76 | what acceptProposal sends for a valid item with a UUID generation passes the server's create schema unchanged |
| Proposals.ListUpdatesKeepUnique | src/hooks/useFlashcardProposals.ts:31-93 | edit, reject and accept keep the ids unique |
| Proposals.AcceptKeepsUnique | src/hooks/useFlashcardProposals.ts:49-88 | every outcome of acceptProposal keeps the ids unique |
| Proposals.WithoutKeepsUnique | src/hooks/useFlashcardProposals.ts:91-93 | removing items keeps the ids unique |
| Proposals.ProposalReview.constructor | src/hooks/useFlashcardProposals.ts:16-17 | the hook starts with no proposals and no generation id |
| Proposals.ProposalReview.InitializeProposals | src/hooks/useFlashcardProposals.ts:19-29 | the list becomes the initialised proposals and the generation id is stored |
| Proposals.ProposalReview.UpdateProposal | src/hooks/useFlashcardProposals.ts:31-47 | the list becomes the edited list; the generation id is kept |
| Proposals.ProposalReview.AcceptProposal | src/hooks/useFlashcardProposals.ts:49-89 | the new list and the request sent are those of the accept step, taken through its guards, the saving mark and the reply; the generation id is kept |
| Proposals.ProposalReview.RejectProposal | src/hooks/useFlashcardProposals.ts:91-93 | the list loses exactly the items with that id, in order; the generation id is kept |
| Proposals.ProposalReview.Reset | src/hooks/useFlashcardProposals.ts:95-98 | the list is emptied and the generation id cleared |
| OpenRouter.Merge | src/lib/services/openrouter.service.ts:198-203 | a merge takes every parameter the update gives and keeps every other |
| OpenRouter.MergeLaws | src/lib/services/openrouter.service.ts:198-203 | merging nothing changes nothing, and repeating the same update is idempotent |
| OpenRouter.ResolveConfig | src/lib/services/openrouter.service.ts:112-138 | the key falls back to the environment's on any empty value, URL and model only when absent; construction succeeds exactly when key, model and URL are all non-empty, fails with the first missing one in key, model, URL order, and starts from temperature 0.7, max_tokens 5000, top_p 1 overridden by the given defaults |
| OpenRouter.DefaultsApply | src/lib/services/openrouter.service.ts:114-137 | with no configuration and an environment key, the service uses https://openrouter.ai/api/v1, openai/gpt-4o-mini and the default parameters |
| OpenRouter.ResponseFormat | src/lib/services/openrouter.service.ts:88-110 | the response format is a json_schema named "flashcards-schema" requiring a flashcards array of objects with string front_content and back_content |
| OpenRouter.SystemMessage | src/lib/services/openrouter.service.ts:216-220 | the system text is the default one, followed by "\nContext: " and the context's JSON exactly when a context is given |
| OpenRouter.Rejected | src/lib/services/openrouter.service.ts:253-317 | an accepted response has a string message content in its first choice |
| OpenRouter.FirstContent | src/lib/services/openrouter.service.ts:256-273 | `choices.length` and `choices[0]` are read as JavaScript reads them; the first three checks fail only as missing choices, missing message or a content that is not a non-empty string; when they pass, the content found is non-empty |
| OpenRouter.ArrayLikeChoices | src/lib/services/openrouter.service.ts:256-260 | an object with a truthy "length" and a "0" member passes the choices test and is read exactly as the one-element array holding that member |
| OpenRouter.ContentAcceptedIff | src/lib/services/openrouter.service.ts:275-310 | the checks on the content pass exactly when it is not blank, parses, has the flashcards shape and every card has both sides non-empty |
| OpenRouter.ToProposals | src/lib/services/openrouter.service.ts:312 | the validated cards become proposals one for one, in order, with their two strings |
| OpenRouter.Slice | src/lib/services/openrouter.service.ts:380 | `slice(0, n)` is a prefix of the list, of length min(n, length) for n ≥ 0 and counted from the end for negative n |
| OpenRouter.SliceNeverPads | src/lib/services/openrouter.service.ts:379-380 | truncation never pads: at most n items and at most the items given, and a short list is returned whole |
| OpenRouter.Service.constructor | src/lib/services/openrouter.service.ts:112-138 | the service holds the resolved key, URL, model and parameters |
| OpenRouter.Service.SetModelParameters | src/lib/services/openrouter.service.ts:198-203 | the parameters become the old ones merged with the update |
| OpenRouter.Service.BuildPayload | src/lib/services/openrouter.service.ts:215-248 | the payload names the model, holds exactly the system message and the user message in that order, the response format and the current parameters |
| OpenRouter.Service.HandleResponse | src/lib/services/openrouter.service.ts:253-317 | the check fails, always as "Invalid response format from API", exactly when a check rejects the response; on success the result is the parsed content, a flashcard response |
| OpenRouter.Service.AllHaveContent | src/lib/services/openrouter.service.ts:303-310 | the loop accepts exactly when every card has a non-empty front and back |
| OpenRouter.Service.SendChatCompletion | src/lib/services/openrouter.service.ts:143-193 | the call succeeds exactly for a 2xx reply with a readable body that passes every check, giving the parsed flashcard response; any failure becomes "Failed to generate flashcard" |
| OpenRouter.Service.GenerateFlashcards | src/lib/services/openrouter.service.ts:361-395 | the call succeeds exactly when the completion does, then returns the first numberOfCards cards in order; any failure becomes "Failed to generate flashcards" |
| OpenRouter.AcceptedIff | src/lib/services/openrouter.service.ts:253-317 | a response is accepted exactly when its content is a non-blank string that parses to an object with a flashcards array of string pairs, every one with both sides non-empty |
| OpenRouter.AllOrNothing | src/lib/services/openrouter.service.ts:302-310 | one card with an empty side rejects the whole response whatever the other cards hold |
| GenerationService.Take10 | src/lib/services/generation.service.ts:19 | `substring(0, 10)` is a prefix of the text of length min(10, length) |
| GenerationService.MockProposals | src/lib/services/generation.service.ts:15-20 | the stand-in always yields five proposals |
| GenerationService.OneDigit | src/lib/services/generation.service.ts:18-19 | the numbers 1..5 in the stand-in texts are written with one digit |
| GenerationService.MockFrontsDistinct | src/lib/services/generation.service.ts:18 | the five fronts "What is concept i?" all differ |
| GenerationService.MockContentValid | src/lib/services/generation.service.ts:17-20 | every stand-in proposal passes the 2..200 content rule on both sides, so accepting one unedited is never refused for its content |
| GenerationService.MockQuotesInput | src/lib/services/generation.service.ts:19 | every back quotes the first ten characters of the input |
| GenerationService.MockDependsOnPrefix | src/lib/services/generation.service.ts:15-20 | the proposals depend on the first ten characters of the input only; the requested card count is ignored |
| GenerationService.GenerationRecord | src/lib/services/generation.service.ts:27-33 | the stored record belongs to the caller, has total_generated 5 and no accepted cards, so it is within its ceiling |
| GenerationService.Service.constructor | src/lib/services/generation.service.ts:5 | the service works on the tables it is given |
| GenerationService.Service.GenerateFlashcards | src/lib/services/generation.service.ts:10-57 | a successful insert appends exactly the record and returns its id, the five proposals, "o3-mini", the elapsed time and 5; a driver error becomes "Database error: …" and no data "Failed to create generation record", storing nothing; the flashcards table is untouched, the tables stay valid and the caller's generated total rises by 5 exactly on success |
| GenerateRoute.JsonReply | src/pages/api/generations/generate.ts:9-17 | the helper sends the data as JSON with the given status, and 200 when the status is absent or 0 |
| GenerateRoute.IssueToJson | src/pages/api/generations/generate.ts:40 | a serialised issue carries its message |
| GenerateRoute.IssuesToJson | src/pages/api/generations/generate.ts:40 | the issues are serialised one for one, in order |
| GenerateRoute.ResponseToJson | src/pages/api/generations/generate.ts:47 | the response JSON carries the generation id, the proposals, the model and the total |
| GenerateRoute.PlanGenerate | src/pages/api/generations/generate.ts:27-41 | an unreadable body gives 400 "Invalid JSON in request body"; the service is called exactly when the schema accepts, for the default user and the parsed input; a rejected body gives 400 "Invalid input" with the issues as details |
| GenerateRoute.FinishGenerate | src/pages/api/generations/generate.ts:43-54 | the status is 200 with the DTO exactly on success; a thrown Error gives 500 with its message, anything else 500 "Internal server error" |
| GenerateRoute.HandleGenerate | src/pages/api/generations/generate.ts:23-59 | the response is the plan's reply with the tables unchanged, or the finish of generateFlashcards with the tables it leaves; flashcards are never touched |
| StatsService.CountWith | src/lib/services/stats.service.ts:9-25 | a filtered count never exceeds the number of rows |
| StatsService.GetUserStats | src/lib/services/stats.service.ts:7-50 | any failing count query gives "Failed to fetch flashcard stats" before the generations query is looked at; a failing generations query gives "Failed to fetch generation stats: …"; otherwise the three counts are the caller's cards per method (a null count as 0) and the total is the sum of the caller's total_generated, null as 0 |
| StatsService.CountsPartition | src/lib/services/stats.service.ts:9-25 | the three per-method counts add up to the number of the caller's cards |
| StatsService.AiCountsSplit | src/lib/services/stats.service.ts:15-25 | the two AI counts add up to the caller's AI cards |
| StatsService.CountWithAppend | src/lib/services/stats.service.ts:9-25 | adding a row raises exactly the count of its owner and method, by one |
| StatsService.OtherUsersIgnored | src/lib/services/stats.service.ts:12-35 | rows of other users do not change the caller's statistics |
| StatsService.NoRowsNoStats | src/lib/services/stats.service.ts:41-49 | with no rows every statistic is 0 |
| StatsService.RejectedNotNegative | src/lib/services/stats.service.ts:41-48 | on tables that keep the acceptance ceiling, the generated total is at least the AI count, so the panel's rejected count is never negative |
| StatsPanel.RoundPercent | src/components/browse/StatsPanel.tsx:39-42 | `Math.round(c / t * 100)` for t > 0 is the integer p with 2tp ≤ 200c + t < 2t(p + 1): the nearest integer, halves up |
| StatsPanel.DivBracket | src/components/browse/StatsPanel.tsx:39-42 | integer division brackets its dividend, the step behind exact rounding |
| StatsPanel.Percent | src/components/browse/StatsPanel.tsx:39-42 | a percentage is 0 when its denominator is not positive and the rounded ratio otherwise |
| StatsPanel.SignOfProduct | src/components/browse/StatsPanel.tsx:39-42 | a positive denominator keeps the sign of the rounding bracket |
| StatsPanel.PercentInRange | src/components/browse/StatsPanel.tsx:39-42 | a part of a whole shows between 0 and 100 percent |
| StatsPanel.Derive | src/components/browse/StatsPanel.tsx:33-43 | the view keeps the data, the rejected count is what makes the AI counts add up to total_generated, and every percentage is the rounded ratio of its count to its denominator (0 for a zero denominator) |
| StatsPanel.SumOfRounded | src/components/browse/StatsPanel.tsx:39-41 | three rounded parts of one whole add up to 99, 100 or 101 |
| StatsPanel.CategoriesNearHundred | src/components/browse/StatsPanel.tsx:39-41 | with a positive total the manual, unedited and edited percentages add up to 99, 100 or 101 |
| StatsPanel.ThirdsShowNinetyNine | src/components/browse/StatsPanel.tsx:39-41 | three equal categories show 33% each, 99 in all |
| StatsPanel.DefaultFixture | test/unit/StatsPanel.test.tsx:12-17 | 10 manual, 20 unedited, 10 edited of 50 generated show 25%, 50%, 25% and 20 rejected at 40% |
| StatsPanel.ZeroFixture | test/unit/StatsPanel.test.tsx:110-133 | all-zero statistics show 0 everywhere |
| StatsPanel.GenerateFlowFixture | test/e2e/full-generate-flow/full-generate-flow.spec.ts:78-94 | five generated with two accepted unedited and one edited leave two rejected |
| StatsPanel.Fetched | src/components/browse/StatsPanel.tsx:22-49 | after fetchStats the panel is not loading; statistics replace the old ones and leave the error cell as it was; a failure keeps the old statistics and stores the server's message or "Failed to fetch statistics", the body-reading error, or the thrown Error's message or "An error occurred" |
| StatsPanel.FetchedClearingError | src/components/browse/StatsPanel.tsx:22-49 | the corrected step: statistics that arrive also clear the error; failures are as before |
| StatsPanel.Items | src/components/browse/StatsPanel.tsx:91-96 | four cards: AI unedited, AI edited, Manual and AI rejected with their counts and percentages |
| StatsPanel.Render | src/components/browse/StatsPanel.tsx:59-116 | the spinner shows exactly while loading, the error screen exactly when not loading with a non-empty error, and the cards only with statistics |
| StatsPanel.RetryKeepsErrorScreen | src/components/browse/StatsPanel.tsx:22-49 | as written, a network error followed by a successful retry still shows the error screen |
| StatsPanel.RetryShowsCards | test/unit/StatsPanel.test.tsx:172-197 | with the error cleared, a successful fetch shows the statistics whatever came before |
| StatsPanel.FirstFetchDecides | src/components/browse/StatsPanel.tsx:55-87 | the first fetch after mounting shows the cards exactly when the statistics arrive |
| StatsPanel.Panel.constructor | src/components/browse/StatsPanel.tsx:18-20 | the panel starts loading with no statistics and no error |
| StatsPanel.Panel.FetchStats | src/components/browse/StatsPanel.tsx:22-49 | the panel's cells become those of one fetch as written |
| StatsPanel.Panel.FetchStatsClearingError | src/components/browse/StatsPanel.tsx:22-49 | the panel's cells become those of the corrected fetch |
| LearnSession.LoadStarted | src/hooks/useLearnSession.ts:36 | loading starts with the error cleared and nothing else changed |
| LearnSession.LoadFinished | src/hooks/useLearnSession.ts:37-55 | loading ends; received cards become both the loaded list and the pile, ending the session exactly when there are none; a non-ok status stores "Failed to fetch flashcards", a rejection its Error's message or "An unknown error occurred"; the shown card and its side are kept |
| LearnSession.RandomIndex | src/hooks/useLearnSession.ts:64 | `Math.floor(Math.random() * n)` is a position of the pile |
| LearnSession.RemoveAt | src/hooks/useLearnSession.ts:66 | the filter drops exactly position i and keeps the rest in order |
| LearnSession.Draw | src/hooks/useLearnSession.ts:58-76 | an empty pile only ends the session; otherwise the drawn card is shown face up, it leaves the pile, the pile shrinks by one and the session ends exactly when it is empty; the loaded list, loading flag and error are kept |
| LearnSession.Flip | src/hooks/useLearnSession.ts:78-83 | a flip toggles the side and changes nothing else |
| LearnSession.Reset | src/hooks/useLearnSession.ts:85-93 | a reset refills the pile with the loaded list, hides the card, shows the front and reopens the session; loading and error are kept |
| LearnSession.InitialConsistent | src/hooks/useLearnSession.ts:21-29 | the initial state's pile is among its loaded cards |
| LearnSession.ActionsKeepConsistent | src/hooks/useLearnSession.ts:34-93 | every action keeps the cards still to draw among the loaded ones |
| LearnSession.DrawRemovesPosition | src/hooks/useLearnSession.ts:64-74 | a draw shows the card at some position of the pile and leaves the pile without that position, the rest in order |
| LearnSession.FlipTwice | src/hooks/useLearnSession.ts:78-83 | two flips restore the state |
| LearnSession.ResetRestoresPile | src/hooks/useLearnSession.ts:85-93 | after a reset the pile holds every loaded card once |
| LearnSession.DrawAllStep | src/hooks/useLearnSession.ts:58-76 | a run of draws is one draw followed by the rest |
| LearnSession.DrawsEndSession | src/hooks/useLearnSession.ts:58-76 | as many draws as the pile holds empty it and end the session |
| LearnSession.Session.constructor | src/hooks/useLearnSession.ts:21-32 | the session starts in the initial state |
| LearnSession.Session.FetchFlashcards | src/hooks/useLearnSession.ts:34-56 | the state becomes the loading update followed by the outcome |
| LearnSession.Session.DrawFlashcard | src/hooks/useLearnSession.ts:58-76 | the state becomes the draw with the given random number |
| LearnSession.Session.FlipCard | src/hooks/useLearnSession.ts:78-83 | the state becomes the flip |
| LearnSession.Session.ResetSession | src/hooks/useLearnSession.ts:85-93 | the state becomes the reset |
| KeyboardShortcuts.Dispatch | src/hooks/useLearnKeyboardShortcuts.ts:13-36 | while active, space and Enter flip, ArrowRight and "n" go to the next card, "r" with Ctrl or Meta restarts, each exactly so; inactive, nothing |
| KeyboardShortcuts.OtherKeysIgnored | src/hooks/useLearnKeyboardShortcuts.ts:16-36 | keys outside the switch do nothing |
| KeyboardShortcuts.PlainRIgnored | src/hooks/useLearnKeyboardShortcuts.ts:29-35 | "r" without Ctrl or Meta does not restart |
| KeyboardShortcuts.OnKey | src/components/learn/LearnContainer.tsx:17-22 | a key the dispatch ignores, or any key while loading or without cards, leaves the session unchanged |
| KeyboardShortcuts.EnterTwice | src/hooks/useLearnKeyboardShortcuts.ts:17-22 | pressing Enter twice shows the card as it was |
| KeyboardShortcuts.ShortcutsKeepConsistent | src/components/learn/LearnContainer.tsx:17-22 | shortcuts keep the cards still to draw among the loaded ones |
| Http.FetchError | src/components/browse/FlashcardGrid.tsx:19-34 | a fetch handler stores no error exactly when the data arrives; an error status stores the server's message or the fallback (or the body-reading error), an unreadable ok body its SyntaxError message, a rejection the Error's message or the generic fallback |
| Http.ChangeOutcome | src/components/browse/BrowseContent.tsx:20-44 | a PUT or DELETE resolves exactly on an ok status; an error status throws the server's message or the fallback; a rejection propagates |
| FlashcardGrid.FilterCards | src/components/browse/FlashcardGrid.tsx:53-57 | "all" keeps every card; otherwise exactly the cards of that creation method, in fetched order |
| FlashcardGrid.Visible | src/components/browse/FlashcardGrid.tsx:52-62 | the shown list is the filtered cards in created_at order for the chosen direction (a sorted permutation) |
| FlashcardGrid.VisibleMembers | src/components/browse/FlashcardGrid.tsx:52-62 | a card is shown exactly when it was fetched and matches the filter |
| FlashcardGrid.AllShowsEverything | src/components/browse/FlashcardGrid.tsx:55 | the "all" filter shows every fetched card |
| FlashcardGrid.Fetched | src/components/browse/FlashcardGrid.tsx:19-34 | after a fetch the grid is not loading; a list replaces the old one and leaves an earlier error in place; a failure keeps the list and stores the fetch's error message |
| FlashcardGrid.Render | src/components/browse/FlashcardGrid.tsx:64-103 | the skeleton shows exactly while loading, the error exactly when not loading with a non-empty error; an empty view says "No flashcards found…" exactly when nothing was fetched and "No flashcards match the selected filter." otherwise; the cards are the visible list |
| FlashcardGrid.AllNeverNoMatch | src/components/browse/FlashcardGrid.tsx:85-95 | with the "all" filter the no-match text never appears |
| FlashcardGrid.Grid.constructor | src/components/browse/FlashcardGrid.tsx:15-17 | the grid starts loading with no cards and no error |
| FlashcardGrid.Grid.FetchFlashcards | src/components/browse/FlashcardGrid.tsx:19-34 | the grid's cells become those of one fetch |
| FlashcardGrid.Grid.HandleChange | src/components/browse/FlashcardGrid.tsx:40-50 | the parent's handler runs first; its rejection propagates with nothing else done; otherwise a refetch follows and then onSuccess when given |
| BrowseContent.Toggled | src/components/browse/BrowseContent.tsx:16-18 | the toggle always changes the direction |
| BrowseContent.ToggleTwice | src/components/browse/BrowseContent.tsx:16-18 | two toggles restore the direction |
| BrowseContent.ToggleReversesOrder | src/components/browse/BrowseContent.tsx:16-18 | for cards with distinct timestamps, toggling the direction reverses which comes first |
| BrowseContent.EditRequest | src/components/browse/BrowseContent.tsx:21-27 | an edit is a PUT to /api/flashcards/{id} with the command's JSON |
| BrowseContent.DeleteRequest | src/components/browse/BrowseContent.tsx:36-38 | a delete is a DELETE to /api/flashcards/{id} without a body |
| BrowseContent.EditOutcome | src/components/browse/BrowseContent.tsx:29-32 | the edit resolves exactly on an ok status and otherwise throws the server's message or "Failed to update flashcard" |
| BrowseContent.DeleteOutcome | src/components/browse/BrowseContent.tsx:40-43 | the delete resolves exactly on an ok status and otherwise throws the server's message or "Failed to delete flashcard" |
| BrowseContent.SilentErrorBody | src/components/browse/BrowseContent.tsx:29-43 | an error body without a message throws the default text |
| BrowseContent.Browse.constructor | src/components/browse/BrowseContent.tsx:9-10 | browsing starts with every card, newest first |
| BrowseContent.Browse.HandleFilterChange | src/components/browse/BrowseContent.tsx:12-14 | the filter becomes the chosen one; the direction is kept |
| BrowseContent.Browse.HandleSortChange | src/components/browse/BrowseContent.tsx:16-18 | the direction is toggled; the filter is kept |
| FlashcardCard.ValidateContent | src/components/browse/FlashcardCard.tsx:28-36 | content passes exactly when its length is in 2..200; under 2 gives "Content must be at least 2 characters long", over 200 "Content must not exceed 200 characters" |
| FlashcardCard.AgreesWithServer | src/components/browse/FlashcardCard.tsx:28-36 | the card's check gives exactly the server content rule's verdict and message |
| FlashcardCard.Card.constructor | src/components/browse/FlashcardCard.tsx:21-25 | a card starts outside edit mode with the stored contents, no errors and not submitting |
| FlashcardCard.Card.ConfirmEdit | src/components/browse/FlashcardCard.tsx:43-47 | confirming the edit dialog enters edit mode with the stored contents; errors and submitting are kept |
| FlashcardCard.Card.SetContent | src/components/browse/FlashcardCard.tsx:22-23 | typing replaces the two texts and nothing else |
| FlashcardCard.Card.Save | src/components/browse/FlashcardCard.tsx:51-76 | nothing is sent exactly when a field is invalid, and then both fields' messages are shown; otherwise the current contents are sent for this card, a success leaves edit mode with no errors, a failure shows "Failed to save changes" on both fields, and submitting ends false |
| FlashcardCard.Card.Cancel | src/components/browse/FlashcardCard.tsx:87-92 | cancelling leaves edit mode, clears the errors and restores the stored contents |
| FlashcardCard.SentUpdateAccepted | src/components/browse/FlashcardCard.tsx:62-65 | what a valid save sends passes the server's update schema unchanged |
| UseGeneration.StatusMessage | src/hooks/useGeneration.ts:29-43 | 400, 401, 429 and 503 each get their own message and every other status "An error occurred during generation." |
| UseGeneration.StatusMessageDetermines | src/hooks/useGeneration.ts:29-43 | two statuses show the same message exactly when they are equal or both fall outside 400, 401, 429 and 503 |
| UseGeneration.Started | src/hooks/useGeneration.ts:18 | a call starts generating with the error cleared and the previous result kept |
| UseGeneration.Outcome | src/hooks/useGeneration.ts:19-54 | the call resolves exactly for an ok status with a readable body, giving that body; a non-ok status throws its status message, an unreadable body its error, and a rejected fetch propagates |
| UseGeneration.Settled | src/hooks/useGeneration.ts:48-52 | once settled nothing is generating; a result is stored exactly on success and an error exactly on failure, the Error's message or "An unexpected error occurred." |
| UseGeneration.RefusedShowsStatusMessage | src/hooks/useGeneration.ts:28-45 | a non-ok status always shows its status message, one of the five |
| UseGeneration.SettledExclusive | src/hooks/useGeneration.ts:48-52 | after any call exactly one of the error and the result is present: a failure drops an earlier result |
| UseGeneration.Generation.constructor | src/hooks/useGeneration.ts:11-15 | the hook starts idle: not generating, no error, no result |
| UseGeneration.Generation.GenerateFlashcards | src/hooks/useGeneration.ts:17-55 | the in-flight state is the started state, the call's value is the outcome it resolves with or rethrows, and the final state is the settled one |
| UseGeneration.Generation.ResetGeneration | src/hooks/useGeneration.ts:57-59 | the state returns to idle |
| CharacterCounter.Render | src/components/generate/CharacterCounter.tsx:10-28 | the counter shows the count, is drawn destructive exactly when the count is out of bounds, and names "min N" under the minimum and "max M" otherwise |
| CharacterCounter.UnderMinIsInvalid | src/components/generate/CharacterCounter.tsx:11-24 | under the minimum the counter is destructive and names the minimum |
| CharacterCounter.ValidShowsMax | src/components/generate/CharacterCounter.tsx:11-24 | a count within bounds shows the maximum in the muted style |
| InputForm.InvalidMessage | src/components/generate/InputForm.tsx:27-31 | an invalid text under 1000 characters gets "Please enter at least 1000 characters", any other "Text cannot exceed 10000 characters" |
| InputForm.CounterAgrees | src/components/generate/InputForm.tsx:19-20 | the form accepts a text exactly when its counter, given the form's bounds, is not destructive |
| InputForm.CommandToJson | src/components/generate/InputForm.tsx:36 | the command sent carries the text and no card count |
| InputForm.SubmittedTextAccepted | src/components/generate/InputForm.tsx:26-36 | a text the form lets through passes the server's schema, trimmed and with the default 5 cards |
| InputForm.BoundsAgree | src/components/generate/InputForm.tsx:12-20 | the form's 1000..10000 rule is the server schema's length rule |
| InputForm.Form.constructor | src/components/generate/InputForm.tsx:16-17 | the form starts with an empty text and no error |
| InputForm.Form.SetInputText | src/components/generate/InputForm.tsx:48 | typing replaces the text and keeps the error |
| InputForm.Form.HandleSubmit | src/components/generate/InputForm.tsx:22-41 | the text is sent exactly when it is valid, with the error cleared; an invalid text shows its message and stays; a successful send empties the text and a failed one keeps it |
| ClientService.ErrorCode | src/services/flashcard.service.ts:17 | the code is the error body's code when truthy, else "UNKNOWN_ERROR"; it is always truthy |
| ClientService.MessageValue | src/services/flashcard.service.ts:18 | the message is the error body's message when truthy, else the default; it is always truthy |
| ClientService.ValidationPayload | src/services/flashcard.service.ts:22-28 | the thrown object has code VALIDATION_ERROR and carries exactly the server's details, dropped when absent |
| ClientService.Create | src/services/flashcard.service.ts:4-43 | create resolves exactly for an ok status with a readable body, giving that body; the body is read before the status, so an unreadable one rejects with its error; VALIDATION_ERROR throws the payload's JSON, INTERNAL_ERROR "Server error. Please try again later.", any other code the server's message or the default; every rejection is an Error |
| ClientService.ValidationRoundTrip | src/services/flashcard.service.ts:20-28 | the route's validation failure reaches the caller intact: the thrown message parses back to an object with code VALIDATION_ERROR whose details are the route's formatted issues |
| ClientService.RoutePayload | src/services/flashcard.service.ts:22-28 | the payload built from the route's details has code VALIDATION_ERROR, those details, and is a value JSON.parse can produce |
| ClientService.RouteBodyRead | src/services/flashcard.service.ts:14-28 | reading the route's validation body finds the VALIDATION_ERROR code and builds the payload from the formatted issues |
| ClientService.InternalErrorWording | src/services/flashcard.service.ts:29-30 | the route's internal error is shown as "Server error. Please try again later." |
| ClientService.UnauthorizedWording | src/services/flashcard.service.ts:31-32 | any other coded error, such as the route's 401, is shown with the server's own message |
| FlashcardForm.ManualCommandOf | src/components/add/FlashcardForm.tsx:30-33 | the command sent is a manual one carrying the form's front and back text |
| FlashcardForm.SubmittedCommandAccepted | src/components/add/FlashcardForm.tsx:28-35 | a form that passes its own schema sends a command the server's create schema accepts unchanged |
| FlashcardForm.EnterNeedsCtrl | src/components/add/FlashcardForm.tsx:58-63 | Enter submits with Ctrl held and not without it, whatever Meta is |
| FlashcardForm.Entries | src/components/add/FlashcardForm.tsx:43 | Object.entries of an object is its members in order; of a number, boolean or null it is empty |
| FlashcardForm.FirstErrorOf | src/components/add/FlashcardForm.tsx:46 | reading `_errors[0]` throws exactly when the value is not an object or its `_errors` is missing or null; for an array it yields the first message or undefined |
| FlashcardForm.SetErrors | src/components/add/FlashcardForm.tsx:43-48 | the forEach never removes a field error already set |
| FlashcardForm.Submit | src/components/add/FlashcardForm.tsx:28-56 | a command is sent exactly when the form has no issues, and it is the manual command of the values; a rejected onSubmit shows no toast; the values are kept or the form is reset |
| FlashcardForm.SuccessResets | src/components/add/FlashcardForm.tsx:35-37 | a successful create shows the success toast and resets the form to empty |
| FlashcardForm.PlainErrorToasted | src/components/add/FlashcardForm.tsx:49-51 | an error message that is not JSON is toasted verbatim and the form is left as it was |
| FlashcardForm.FormatDetailsThrow | src/components/add/FlashcardForm.tsx:40-48 | over zod format() output the forEach throws on the first, top-level entry and sets nothing |
| FlashcardForm.ValidationErrorLost | src/components/add/FlashcardForm.tsx:40-48 | a 400 validation failure from the route leaves the form unchanged, toasts nothing and rejects |
| FlashcardForm.FirstFieldMessage | src/components/add/FlashcardForm.tsx:41-48 | a field with issues yields its first message |
| FlashcardForm.SetErrorsOverNodes | src/components/add/FlashcardForm.tsx:41-48 | over field nodes alone nothing throws, each listed field gets its first message and other errors are kept |
| FlashcardForm.FormatDetailsMapped | src/components/add/FlashcardForm.tsx:41-48 | skipping the top-level entry, exactly the fields with issues get their first message, the others are kept, and nothing throws |
| FlashcardForm.ValidationErrorShown | src/components/add/FlashcardForm.tsx:41-48 | with the corrected mapping a route validation failure puts each failing field's first message on it, keeps the values and shows no toast |
| FlashcardForm.Form.constructor | src/components/add/FlashcardForm.tsx:18-26 | the form starts with empty values and no field errors |
| FlashcardForm.Form.SetValues | src/components/add/FlashcardForm.tsx:66-110 | typing changes the values and keeps the field errors |
| FlashcardForm.Form.ApplyDetails | src/components/add/FlashcardForm.tsx:43-48 | the loop leaves the field errors and the thrown flag that SetErrors specifies, values untouched |
| FlashcardForm.Form.OnSubmit | src/components/add/FlashcardForm.tsx:28-56 | the command sent, the toast, the rejection and the new form state are those Submit specifies |
| ApiErrors.UnauthorizedError | src/lib/errors/api.errors.ts:21-25 | status 401, code UNAUTHORIZED, no details, and "Unauthorized access" only when no message is passed |
| ApiErrors.ValidationError | src/lib/errors/api.errors.ts:27-31 | status 400, code VALIDATION_ERROR, the given message and details |
| ApiErrors.DatabaseError | src/lib/errors/api.errors.ts:33-37 | status 500, code DATABASE_ERROR, the given message and details |
| ApiErrors.ToJson | src/lib/errors/api.errors.ts:12-18 | the serialised error has members error and code carrying the message and code, and details exactly when defined |
| ApiErrors.CreateApiError | src/lib/errors/api.errors.ts:39-54 | an APIError passes through; an Error mentioning "Failed to fetch" becomes a database error; other Errors an internal error with their message; anything else the unexpected-error text |
| ApiErrors.CreateIdempotent | src/lib/errors/api.errors.ts:39-42 | classifying an already classified error returns it unchanged |
| ApiErrors.ClassifiedStatus | src/lib/errors/api.errors.ts:44-53 | whatever is not an APIError ends up with status 500 and no details, and a plain Error keeps its message |
| ApiErrors.FetchFailureIsDatabaseError | src/lib/errors/api.errors.ts:46-48 | "Failed to fetch" anywhere in the message gives code DATABASE_ERROR |
| Cookies.ParseSegment | src/db/supabase.client.ts:17-19 | a trimmed segment without "=" is all name with an empty value; otherwise the name is the text before the first "=" and the value everything after it |
| Cookies.ParseCookieHeader | src/db/supabase.client.ts:16-21 | one cookie per ";"-separated segment, in order, each parsed as ParseSegment says |
| Cookies.EntryCount | src/db/supabase.client.ts:17 | the header yields one entry more than it has semicolons |
| Cookies.SegmentRestored | src/db/supabase.client.ts:18-19 | joining name and value with "=" gives back the trimmed segment, so later "=" signs stay in the value |
| Cookies.NameStopsAtFirstEquals | src/db/supabase.client.ts:18 | a parsed name never contains "=" |
| Cookies.EmptyHeader | src/db/supabase.client.ts:28 | a missing Cookie header, read as "", yields one cookie with an empty name and value |
| Cookies.SpacesAroundEquals | src/db/supabase.client.ts:18 | " a = b " parses to the name "a " and the value " b": only the segment's ends are trimmed |
| Logger.Parts | src/lib/logger.ts:9-13 | two or three parts: the tag first and the message last, with the bracketed context between them exactly when a non-empty context is given |
| Logger.FormatMessage | src/lib/logger.ts:8-15 | the line built by the pushes is the parts joined with single spaces |
| Logger.LineShape | src/lib/logger.ts:8-15 | the line is "[10x-Flashcards] ", then "[context] " when there is a non-empty context, then the message |
| Middleware.ServerInstance | src/db/supabase.client.ts:23-29 | the request's server client reads its cookies from the Cookie header, or from "" when the header is missing |
| Middleware.Route | src/middleware/index.ts:28-50 | a signed-in user on an auth page goes to /learn; otherwise a public path proceeds without a user; otherwise a missing user goes to the login page with the return URL; otherwise the request proceeds with the user's id and email in locals |
| Middleware.AuthRedirectPrecedes | src/middleware/index.ts:28-36 | an auth page is public, yet a signed-in user asking for it goes to /learn, while an anonymous one passes |
| Middleware.PublicByPrefix | src/middleware/index.ts:33-36 | the public check matches prefixes: any path that extends "/api/auth/login" proceeds, with or without a user |
| Middleware.ProtectedNeedsUser | src/middleware/index.ts:38-50 | on a non-public path the request proceeds exactly when there is a user, and then with that user in locals |
| Middleware.AuthPagesArePublic | src/middleware/index.ts:5-17 | every auth page is also a public path |
| Middleware.Locals.constructor | src/middleware/index.ts:19 | locals start with neither a client nor a user |
| Middleware.OnRequest | src/middleware/index.ts:19-51 | locals.supabase is always set to the request's client; the decision is Route's; locals.user is set only when the request proceeds with a user, and is otherwise untouched |
| ConfirmModal.UseConfirmModal | src/hooks/useConfirmModal.tsx:17-23 | inside a provider the hook returns the context; outside one it throws the "must be used within a ConfirmModalProvider" Error |
| ConfirmModal.Provider.constructor | src/hooks/useConfirmModal.tsx:26 | the provider starts with no dialog stored |
| ConfirmModal.Provider.OpenModal | src/hooks/useConfirmModal.tsx:28-30 | the given options are stored with isOpen set, replacing earlier ones |
| ConfirmModal.Provider.Cancel | src/hooks/useConfirmModal.tsx:32-34 | cancelling clears the stored dialog |
| ConfirmModal.Provider.Confirm | src/hooks/useConfirmModal.tsx:43-46 | confirming runs the stored callback exactly once, then clears the dialog |
| LoginForm.FirstLine | src/components/auth/LoginForm.tsx:17 | the prefix before the first line terminator, which is as far as the lookaheads' `.*` can reach |
| LoginForm.PasswordMessages | src/components/auth/LoginForm.tsx:14-17 | no message exactly when the password has at least 4 characters and an ASCII letter and a digit on its first line; the length message comes first, the letters-and-numbers message last |
| LoginForm.PasswordExamples | src/components/auth/LoginForm.tsx:14-17 | "abc1" passes, "abcd" lacks a digit, and "a1" is too short |
| LoginForm.SecondLineIgnored | src/components/auth/LoginForm.tsx:17 | a letter and a digit after a line break do not satisfy the rule |
| LoginForm.LoginIssues | src/components/auth/LoginForm.tsx:12-18 | the credentials pass exactly when the email check passes and the password rule holds |
| LoginForm.LoginUrl | src/components/auth/LoginForm.tsx:38 | the returnUrl is appended, unencoded, exactly when it is present and non-empty |
| LoginForm.CredentialsToJson | src/components/auth/LoginForm.tsx:41 | the body carries the email and the password |
| LoginForm.Settle | src/components/auth/LoginForm.tsx:44-60 | an ok reply navigates to data.redirect; a 400 shows data.error or "Invalid email or password" as the root error; everything else, including a network failure or an unreadable body, shows the generic toast |
| LoginForm.FailuresDoNotNavigate | src/components/auth/LoginForm.tsx:46-60 | a reply that is not ok never navigates, and apart from a 400 it always shows the generic toast |
| LoginForm.Login.constructor | src/components/auth/LoginForm.tsx:23-33 | the form starts not loading and with no root error |
| LoginForm.Login.OnSubmit | src/components/auth/LoginForm.tsx:35-64 | a request is sent exactly when the schema passes, to LoginUrl with the credentials; the outcome is Settle's; every submit clears the root error, so afterwards it is the one this attempt set, and none when the schema rejects; loading is off afterwards |
| ResetPasswordForm.ResetIssues | src/components/auth/ResetPasswordForm.tsx:10-21 | the form passes exactly when the password meets the login rule and equals its confirmation; a mismatch adds "Passwords don't match" on confirmPassword last, even when the password checks fail too |
| ResetPasswordForm.SameRuleAsLogin | src/components/auth/ResetPasswordForm.tsx:12-15 | with a matching confirmation and a valid email, the reset form accepts exactly the passwords the login form accepts |
| ResetPasswordForm.TokenGuard | src/components/auth/ResetPasswordForm.tsx:28-35 | without a non-empty token the page toasts "Invalid reset link" and goes to /auth/login, and otherwise does nothing |
| ResetPasswordForm.ResetBody | src/components/auth/ResetPasswordForm.tsx:51 | the body carries the password alone, without the confirmation |
| ResetPasswordForm.Settle | src/components/auth/ResetPasswordForm.tsx:54-62 | the page goes to /auth/login with the success toast exactly when the reply is ok; an error body shows its error text or the default; a network failure shows its message or the default |
| ResetPasswordForm.FailureStays | src/components/auth/ResetPasswordForm.tsx:54-62 | a failed reset stays on the page with an error toast, and an error body without a message shows "Could not reset password. Try again." |
| ResetPasswordForm.Reset.constructor | src/components/auth/ResetPasswordForm.tsx:26 | the form starts not loading |
| ResetPasswordForm.Reset.OnSubmit | src/components/auth/ResetPasswordForm.tsx:45-66 | a request to the reset endpoint with ResetBody is sent exactly when the schema passes; the result is Settle's; loading is off afterwards |

## Left out

- **Lengths and numbers.**
  - String lengths are counted in Unicode characters. JavaScript and zod count UTF-16 code units, so the two counts differ for characters outside the Basic Multilingual Plane.
  - JSON numbers are exact rationals, not IEEE doubles.
  - `created_at` is an integer timestamp; parsing date strings is left out.
  - `Math.round` over a float ratio is replaced by exact rounding of the rational percentage, halves up.
- **Library parsers and encoders.** These are parameters or abstract values, because their code is not part of this model:
  - JSON.stringify and JSON.parse are an abstract `Codec`, and the model relies on one law only: parse undoes stringify.
  - zod's email check.
  - encodeURIComponent.
  - zod's built-in messages ("Required", "Expected string" and so on) are stand-ins whose exact wording belongs to the library.
- JSON.parse's treatment of duplicate member names, and the order in which Object.entries lists integer-like keys, are not modelled. Object members keep their textual order.
- Property access on a null body yields undefined in the model. JavaScript throws a TypeError there.
- `x || fallback` on a server message is modelled for strings only. A truthy value of another type (a number, an object) is treated as missing.
- The body of an ok response is taken to be a well-typed DTO. A client never checks it at run time, and neither does the model.
- The issues serialised by the routes carry only their path and message. zod's `code` and other members are not modelled.
- **Supabase and transport.**
  - Supabase queries and auth calls are replaced by the in-memory `Database.Tables` and a given optional user.
  - Each database error is a parameter: the message the driver would report.
  - HTTP transport is a reply value passed to the method that would send the request. This includes the OpenRouter request, its headers and its timeouts.
- createFlashcard's check-then-increment is modelled sequentially. Its atomicity under concurrent requests is a database-level property that cannot be stated here.
- **Clock, randomness and configuration.**
  - `Date.now` (generation time) and `Math.random` (the learn session's draw) are parameters.
  - SUPABASE_DEFAULT_USER_ID (the generate route's owner) and the OpenRouter model parameters are parameters too.
- OpenRouter.Service.GenerateFlashcards takes numberOfCards as a required parameter. The source's default of 5 is not modelled; no caller in the source omits the argument.
- OpenRouter.ToProposals keeps only `front_content` and `back_content`. The source returns the parsed card objects whole, so any extra members of a card reach the caller there and are dropped here.
- FlashcardService.Service.ListFlashcards orders cards with equal `created_at` stably, in table order. The database leaves the order of such ties unspecified.
- FlashcardService.Service.GetFlashcard returns the first matching row. `.single()` also fails with "Flashcard not found" when several rows match, which cannot happen here because flashcard ids are unique keys (`Database.Tables.Valid`).
- GenerationService.Service.GenerateFlashcards: when the insert returns no data (`NothingReturned`), the model stores no row. The row's fate in the database is not visible to the code.
- **UI glue.** These are left out because they hold no rule of their own:
  - rendering;
  - React effect and listener mechanics, including registering the keyboard listener and useSearchParams;
  - the ConfirmModal component itself;
  - the thin routes src/pages/api/flashcards/[id].ts, src/pages/api/stats.ts and the auth API routes;
  - ResetPasswordRequestForm.
- The console calls of `logger`, the development switch around them, and the services' error logging are side effects with no behaviour to model.
- FlashcardCard's delete confirmation and the confirm dialog's rendering are left out. The card's edit dialog is reduced to its confirm step, `ConfirmEdit`.
- The confirm callback of a dialog (`ConfirmModal.Options`) is known by a number standing for its identity. Running it is recorded as the list of callbacks run.
- FlashcardGrid.Fetched keeps an earlier error after a successful refetch, as StatsPanel does. It is modelled as written and not repeated as a finding.
- FlashcardGrid.Grid.HandleChange takes whether onSuccess is given as a parameter. BrowseContent passes none.
- Proposals.ProposalReview.AcceptProposal does not model its success and failure toasts.
- FlashcardForm.Form.OnSubmit:
  - react-hook-form's resolver errors are represented only by the form-schema check before submit;
  - the clearing of earlier errors between submits is not modelled;
  - what is modelled is the field errors set by `setError` and whether the handler rejects.
- LoginForm.Login.OnSubmit clears the root error at the start of every submit, before the schema check. This stands for react-hook-form's handleSubmit, which replaces the form's errors with the resolver's on each submit; the library's code is not part of this model.
- The submit buttons' disabled flags are plain predicates without a contract of their own: FlashcardForm.SubmitDisabled and the InputForm button.

## Findings

| source | as written | input that shows it | evidently intended | confidence | as-written member | corrected member |
|---|---|---|---|---|---|---|
| src/components/browse/StatsPanel.tsx:22-49 | fetchStats sets the error cell on failure but never clears it on success, and an error is rendered before the statistics | a fetch that rejects with Error("Network error"), then a retry that returns statistics | the retry shows the statistics, as test/unit/StatsPanel.test.tsx:172-197 expects | high, not executed | StatsPanel.RetryKeepsErrorScreen | StatsPanel.RetryShowsCards |
| src/components/add/FlashcardForm.tsx:40-48 | the details of a validation error are zod format() output, whose first entry is the top-level `_errors` array; reading `_errors[0]` on that array's `_errors` (undefined) throws a TypeError | any 400 VALIDATION_ERROR answer to the create request, whose message the client service encodes as JSON with the formatted issues as details; latent for this form, because FlashcardForm.SubmittedCommandAccepted shows the route accepts every command the form sends, so such an answer arrives only if the client and server rules diverge | each failing field shows its first message | medium, not executed | FlashcardForm.ValidationErrorLost | FlashcardForm.ValidationErrorShown |
