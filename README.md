# codestudio playground core, modelled in Dafny

This project models the logic at the core of the codestudio browser playground:

- **File tree** (`FileTree`). It models the template's virtual file tree. `findFilePath` finds the object itself or an equal copy, preferring the object only within one folder: a copy in an earlier subfolder is found first (see "## Findings"). `findAllFilePaths` lists every path that has a given file name. `hashCode` hashes file contents the way JavaScript does. `generateFileId` combines them into a stable file id.
- **AI suggestion hook** (`AiSuggestion`). It models the suggestion state record and its `setState` updaters: toggle, fetch start and completion, reject, clear and accept. A small class plays the hook's state cell.
- **Inline-completion provider** (`InlineCompletion`). It models when the editor offers the current suggestion at the cursor, and the item it offers. It also models the refs that the provider and the mount handler write.
- **WebContainer runtime hook** (`WebContainerRuntime`). It models the module-wide single-flight boot cache, mirroring a file into the runtime filesystem, and teardown. The filesystem is a map plus a set of directories, and the class logs the fs calls made on it.
- **Chat API route** (`ChatRoute`). It models request validation, history filtering and truncation, system-prompt selection, extraction of the Groq reply, and the fallback of prompt enhancement.

Two modules hold shared pieces:

- `JsStrings` gives the JavaScript string operations the code relies on. These are `trim` over the ECMAScript white-space set, `split`/`join` on one separator, removing every occurrence of a character, and decimal rendering of numbers.
- `Wrappers` holds `Option` and `Result`.

As written, `fetchSuggestion` never sends a request (see "## Findings"). The intended fetch, `FetchStartUpdateIntended` with the completion updater `FetchCompleteUpdate`, is modelled as its code reads. The model follows that code in three places where it departs from what the hook evidently means to do:

- A suggestion that arrives after suggestions were switched off is still stored (`AiSuggestion.CompletionIgnoresEnabled`, `AiSuggestion.DisabledWhileInFlight`).
- A failed or empty suggestion fetch only clears the loading flag.
- The suggestion request carries no file name.

Four operations of the code are evidently wrong (see "## Findings"). Each is modelled as written, and the intended version sits beside it under its own name:

- `fetchSuggestion` is `SuggestionHook.FetchSuggestion` over `FetchStartUpdate`, next to `FetchSuggestionIntended` over `FetchStartUpdateIntended`.

- `acceptSuggestion` is `SuggestionHook.AcceptSuggestion` over `AcceptUpdate`, next to `AcceptSuggestionIntended` over `AcceptUpdateIntended`.
- `generateFileId` is `GenerateFileId` over `FindFilePath`, next to `GenerateFileIdIntended` over `FindFilePathIdentityFirst`.
- `provideInlineCompletions` is `EditorRefs.ProvideInlineCompletions` over `ProvideAsWritten`, next to `ProvideInlineCompletionsIntended` over `ProvideItems`.

Two example runs of the runtime session are worked through as methods whose assertions Dafny checks. `WebContainerRuntime.SingleFlightBoot` shows two callers sharing one boot and a third receiving the cached instance. `WebContainerRuntime.BootRetriesAfterFailure` shows a failed boot followed by a fresh boot on the next call.

Object identity (`===` on file objects) is a field `id` of `File`. Two nodes with the same id are the same object, and `IdentityConsistent` states that assumption where a lemma needs it.

## Model

| member | source | states |
|---|---|---|
| JsStrings.Trim | features/AIChat/Hooks/useAiSuggestion.tsx:93 | the result is the input with its leading and trailing ECMAScript white space removed: a contiguous slice with only white space outside it and none at either end |
| JsStrings.TrimIdempotent | features/AIChat/Hooks/useAiSuggestion.tsx:93 | trimming twice is trimming once |
| JsStrings.Split | features/webContainers/hooks/useWebContainer.ts:96 | `split` returns at least one part; no part holds the separator; joining the parts gives the input back; there is one part exactly when the separator is absent |
| JsStrings.SplitJoin | features/webContainers/hooks/useWebContainer.ts:96-97 | splitting a join of separator-free parts gives back those parts |
| JsStrings.DirName | features/webContainers/hooks/useWebContainer.ts:96-97 | `split(sep).slice(0, -1).join(sep)` is empty when the path holds no separator |
| JsStrings.DirNameShape | features/webContainers/hooks/useWebContainer.ts:96-97 | with a separator in the path, the path is that directory, the separator and a separator-free last segment |
| JsStrings.RemoveAll | features/playground/components/PlaygroundEditor.tsx:87 | `replace(/\r/g, "")` leaves no such character and never lengthens the text; a string without it is unchanged |
| JsStrings.RemoveAllKeepsOthers | features/playground/components/PlaygroundEditor.tsx:87 | every other character is kept with its multiplicity |
| JsStrings.RemoveAllAppend | features/playground/components/PlaygroundEditor.tsx:87 | removal distributes over concatenation, so the kept characters stay in their original order |
| JsStrings.NatToDecimal | features/playground/lib/index.ts:136 | the decimal rendering of a number has no leading zero and reads back as that number |
| FileTree.FindAllFilePaths | features/playground/lib/index.ts:47-72 | the method's loop returns exactly the paths of the files with the same filename and extension, in depth-first, left-to-right order |
| FileTree.NamePathsMembers | features/playground/lib/index.ts:60-69 | a path is listed exactly when some same-named file of the tree has that path |
| FileTree.NamePathsAppend | features/playground/lib/index.ts:55-58 | the listing of a concatenation is the concatenation of the listings (a subfolder's paths are spliced in place) |
| FileTree.FindFilePathCorrect | features/playground/lib/index.ts:74-114 | the partner of `FindFilePath` (the search as written): a found path belongs to a file of the tree that is the object itself or equal to it by value; the result is null exactly when no file anywhere in the tree matches |
| FileTree.IdentityFirstAtLevel | features/playground/lib/index.ts:79-92 | within one folder, the object itself wins over value copies in the same folder, provided no earlier subfolder holds a match |
| FileTree.ValueFallbackAtLevel | features/playground/lib/index.ts:94-111 | when the identity loop finds nothing, the fallback's second descent finds nothing either, and the result is the first value match among this folder's own files |
| FileTree.EarlierCopyBeatsIdentity | features/playground/lib/index.ts:79-84 | as written, an equal copy in an earlier folder is returned instead of the object's own path in a later folder |
| FileTree.FindFilePathIdentityFirst | features/playground/lib/index.ts:84-89 | the intended search: null exactly when nothing matches, every result is a match, and the first file that is the object itself wins |
| FileTree.IdentityFirstFindsObject | features/playground/lib/index.ts:84-89 | on the tree where the copy wins as written, the intended search returns the object's own path |
| FileTree.ToInt32 | features/playground/lib/index.ts:151 | `hash & hash` yields the signed 32-bit integer congruent to the input modulo 2^32 |
| FileTree.HashStepIsTimes31 | features/playground/lib/index.ts:150 | `((h << 5) - h) + c` truncated to 32 bits is `31 * h + c` truncated to 32 bits |
| FileTree.ContentHash | features/playground/lib/index.ts:146-154 | the hash is `Math.abs` of a signed 32-bit value, so it lies in [0, 2^31] |
| FileTree.ContentHashExamples | features/playground/lib/index.ts:146-154 | the empty string hashes to 0; "a" hashes to 97; "ab" hashes to 31 * 97 + 98 |
| FileTree.HashCode | features/playground/lib/index.ts:146-154 | the loop over UTF-16 code units computes the content hash |
| FileTree.GenerateFileId | features/playground/lib/index.ts:116-143 | as written, the id is located with `findFilePath` (`FindFilePath`): whenever that search gives a non-empty path, the id is that path |
| FileTree.GenerateFileIdFound | features/playground/lib/index.ts:117-122 | when `findFilePath` gives a non-empty path, the id is exactly that path, and it is the path of a file of the tree that is the object itself or equal to it by value |
| FileTree.GenerateFileIdOfCopy | features/playground/lib/index.ts:117-122 | as written, on the tree where an equal copy sits in an earlier folder, the id is the copy's path "a/index.ts" |
| FileTree.GenerateFileIdIntended | features/playground/lib/index.ts:116-143 | with the identity-first search in its place, a found id is the path of a matching file, and it is the path of the first file of the tree that is the object itself whenever there is one with a non-empty path |
| FileTree.GenerateFileIdIntendedOfObject | features/playground/lib/index.ts:117-122 | on that tree, the intended id is the object's own path "b/index.ts", unlike the id as written |
| FileTree.GenerateFileIdByName | features/playground/lib/index.ts:118-137 | when the search gives no truthy path (no match, or only a match whose path is "") but there are same-named files, the id is the first of their paths; when there are several, "-" and the content hash are appended |
| FileTree.GenerateFileIdFresh | features/playground/lib/index.ts:139-142 | with no same-named file, the id is the filename, "." plus the trimmed extension when non-empty, "-" and the fresh stamp |
| AiSuggestion.InitialState | features/AIChat/Hooks/useAiSuggestion.tsx:23-29 | no suggestion, not loading, no position, no decorations, enabled |
| AiSuggestion.ToggleUpdate | features/AIChat/Hooks/useAiSuggestion.tsx:31-33 | negates `isEnabled` and keeps every other field |
| AiSuggestion.ToggleTwice | features/AIChat/Hooks/useAiSuggestion.tsx:31-33 | toggling twice restores the state |
| AiSuggestion.FetchStartUpdate | features/AIChat/Hooks/useAiSuggestion.tsx:39-113 | as written: the state is returned unchanged when disabled or when the editor, model or cursor is missing; otherwise the updater throws a `TypeError`, because the object literal of line 64 is called with the async function of lines 69-111 |
| AiSuggestion.FetchStartUpdateIntended | features/AIChat/Hooks/useAiSuggestion.tsx:39-76 | as intended: no request and no change exactly when disabled or when the editor, model or cursor is missing; otherwise only `isLoading` becomes true, and the payload carries the model text and the cursor made 0-based |
| AiSuggestion.FetchStartNeverSends | features/AIChat/Hooks/useAiSuggestion.tsx:39-113 | the updater as written throws exactly when the intended one would send a request, and otherwise returns what the intended one returns, so as written no request is sent and loading never starts |
| AiSuggestion.FetchCompleteUpdate | features/AIChat/Hooks/useAiSuggestion.tsx:92-110 | a truthy response is stored trimmed at the send-time cursor; anything else changes only `isLoading`; loading always ends |
| AiSuggestion.CompletionIgnoresEnabled | features/AIChat/Hooks/useAiSuggestion.tsx:92-102 | the completion updater gives the same result whatever `isEnabled` holds |
| AiSuggestion.FetchRoundTrip | features/AIChat/Hooks/useAiSuggestion.tsx:64-110 | with the intended start, start then completion gives the original state, or that state with the trimmed suggestion at the cursor whose 0-based line was sent |
| AiSuggestion.DismissUpdate | features/AIChat/Hooks/useAiSuggestion.tsx:149-175 | reject and clear drop the suggestion, the position and the decorations, keep the flags, and remove the decorations only when there is an editor |
| AiSuggestion.DismissIdempotent | features/AIChat/Hooks/useAiSuggestion.tsx:149-175 | dismissing twice is dismissing once, and the second call removes nothing |
| AiSuggestion.AcceptUpdate | features/AIChat/Hooks/useAiSuggestion.tsx:117-147 | as written, the accept callback returns the state unchanged and makes no edit |
| AiSuggestion.AcceptKeepsSuggestion | features/AIChat/Hooks/useAiSuggestion.tsx:117-147 | as written, accepting gives `(s, None)` for every state and handles; with a truthy suggestion at a position, an editor and Monaco, that differs from the intended accept |
| AiSuggestion.Sanitize | features/AIChat/Hooks/useAiSuggestion.tsx:125 | removing `^\d+:\s*` at line starts never lengthens the text, and leaves it unchanged exactly when no line starts that way |
| AiSuggestion.DigitRunMaximal | features/AIChat/Hooks/useAiSuggestion.tsx:125 | `\d+` takes the whole run of digits: every character of the run is a digit and the run stops at the end or at a non-digit |
| AiSuggestion.WhitespaceRunMaximal | features/AIChat/Hooks/useAiSuggestion.tsx:125 | `\s*` takes the whole run of white space, stopping at the end or at a non-space character |
| AiSuggestion.SanitizeFromUnchanged | features/AIChat/Hooks/useAiSuggestion.tsx:125 | from any position, the rest of the text is kept unchanged exactly when no line prefix starts in it |
| AiSuggestion.SanitizeSkip | features/AIChat/Hooks/useAiSuggestion.tsx:125 | a stretch where no line prefix starts is copied unchanged and in order, ahead of the sanitised remainder |
| AiSuggestion.SanitizeOneLine | features/AIChat/Hooks/useAiSuggestion.tsx:125 | a single line loses exactly its leading `digits ":" whitespace` and keeps the rest, in order |
| AiSuggestion.LinePrefixStrippable | features/AIChat/Hooks/useAiSuggestion.tsx:125 | a removed line prefix is made only of digits, `:` and white space |
| AiSuggestion.SanitizeFromSplits | features/AIChat/Hooks/useAiSuggestion.tsx:125 | every character of the text is either kept or part of a removed line prefix: for each character, the kept and the removed copies add up to the original count |
| AiSuggestion.PrefixesOmit | features/AIChat/Hooks/useAiSuggestion.tsx:125 | the removed line prefixes hold no character other than digits, `:` and white space |
| AiSuggestion.SanitizeRemovesOnlyPrefixes | features/AIChat/Hooks/useAiSuggestion.tsx:125 | sanitising only removes characters, and every character other than a digit, `:` or white space keeps its count |
| AiSuggestion.SanitizeCrossesLineBreak | features/AIChat/Hooks/useAiSuggestion.tsx:125 | sanitising is not line by line: `\s*` also takes a line terminator, so "1:\n2" sanitises to "2", not to "\n2" |
| AiSuggestion.SanitizeExample | features/AIChat/Hooks/useAiSuggestion.tsx:125 | "12: x" sanitises to "x" |
| AiSuggestion.AcceptUpdateIntended | features/AIChat/Hooks/useAiSuggestion.tsx:119-145 | with a truthy suggestion, a position, an editor and Monaco, inserts the sanitised suggestion at the position and dismisses it; otherwise changes nothing |
| AiSuggestion.SuggestionHook.constructor | features/AIChat/Hooks/useAiSuggestion.tsx:23-29 | the hook starts in the initial state |
| AiSuggestion.SuggestionHook.ToggleEnabled | features/AIChat/Hooks/useAiSuggestion.tsx:31-33 | applies the toggle updater to the state cell |
| AiSuggestion.SuggestionHook.FetchSuggestion | features/AIChat/Hooks/useAiSuggestion.tsx:35-115 | as written: the cell is left alone, and the updater's outcome is a thrown `TypeError` exactly when the checks pass, else the state unchanged |
| AiSuggestion.SuggestionHook.FetchSuggestionIntended | features/AIChat/Hooks/useAiSuggestion.tsx:39-76 | applies the intended fetch-start updater and returns the request it issues |
| AiSuggestion.SuggestionHook.CompleteFetch | features/AIChat/Hooks/useAiSuggestion.tsx:92-110 | for a request of the intended fetch, applies the completion updater for the request's send-time cursor |
| AiSuggestion.SuggestionHook.AcceptSuggestion | features/AIChat/Hooks/useAiSuggestion.tsx:117-147 | as written: the state cell is unchanged and no edit is made |
| AiSuggestion.SuggestionHook.AcceptSuggestionIntended | features/AIChat/Hooks/useAiSuggestion.tsx:119-145 | applies the intended accept updater and returns the edit handed to `executeEdits` |
| AiSuggestion.SuggestionHook.RejectSuggestion | features/AIChat/Hooks/useAiSuggestion.tsx:149-161 | applies the dismiss updater and returns the decorations removed |
| AiSuggestion.SuggestionHook.ClearSuggestion | features/AIChat/Hooks/useAiSuggestion.tsx:163-175 | applies the dismiss updater and returns the decorations removed |
| AiSuggestion.DisabledWhileInFlight | features/AIChat/Hooks/useAiSuggestion.tsx:31-110 | with the intended fetch, switching suggestions off while a fetch is in flight leaves them off, yet the fetched text is still stored trimmed at the send-time cursor and loading ends |
| InlineCompletion.ProvideItems | features/playground/components/PlaygroundEditor.tsx:54-98 | at most one item; exactly one when no accept flag is set, the suggestion is truthy with a position, and the cursor is on its line within two columns to its right; that item's text is `RemoveAll(suggestion, '\r')`, the suggestion with every carriage return removed and every other character kept in order, inserted at the empty range at the position |
| InlineCompletion.EmptyRangeAt | features/playground/components/PlaygroundEditor.tsx:93-98 | the range starts and ends at the suggestion's position |
| InlineCompletion.InsertTextClean | features/playground/components/PlaygroundEditor.tsx:87 | the offered text has no carriage return left to remove |
| InlineCompletion.WindowBounds | features/playground/components/PlaygroundEditor.tsx:66-78 | the window covers the anchor column and the two to its right, not the column before it, the third to its right, or another line |
| InlineCompletion.ProvideAsWritten | features/playground/components/PlaygroundEditor.tsx:89-99 | as written, the provider rejects exactly when it would offer an item, and otherwise returns no items |
| InlineCompletion.AsWrittenNeverOffers | features/playground/components/PlaygroundEditor.tsx:99 | as written, the provider never yields an item |
| InlineCompletion.EditorRefs.constructor | features/playground/components/PlaygroundEditor.tsx:34-43 | every ref starts empty or false |
| InlineCompletion.EditorRefs.HandleEditorDidMount | features/playground/components/PlaygroundEditor.tsx:121-124 | records the editor and Monaco instances and leaves the other refs alone |
| InlineCompletion.EditorRefs.ProvideInlineCompletions | features/playground/components/PlaygroundEditor.tsx:54-110 | as written: the outcome is `ProvideAsWritten`; when an item would be offered, the current-suggestion ref is written (text, position, fresh id) and the promise rejects; otherwise it yields no items and the ref is unchanged |
| InlineCompletion.EditorRefs.ProvideInlineCompletionsIntended | features/playground/components/PlaygroundEditor.tsx:54-98 | with the item kind read as intended, returns `ProvideItems` and writes the current-suggestion ref exactly when an item is offered |
| WebContainerRuntime.FolderPath | features/webContainers/hooks/useWebContainer.ts:96-97 | the folder is empty for a path without "/" |
| WebContainerRuntime.FolderPathShape | features/webContainers/hooks/useWebContainer.ts:96-97 | a path with a "/" is its folder, "/" and a last segment without "/" |
| WebContainerRuntime.FolderPathIsDirName | features/webContainers/hooks/useWebContainer.ts:96-97 | the folder is exactly `path.split("/").slice(0, -1).join("/")` |
| WebContainerRuntime.TopLevelHasNoFolder | features/webContainers/hooks/useWebContainer.ts:96-100 | a top-level file, and one whose only "/" leads, have no folder to create |
| WebContainerRuntime.WritePlan | features/webContainers/hooks/useWebContainer.ts:100-104 | the fs calls are a recursive `mkdir` of the folder exactly when it is non-empty, then the write |
| WebContainerRuntime.CallsMade | features/webContainers/hooks/useWebContainer.ts:100-104 | the calls made are a non-empty prefix of the plan, cut short exactly when there is a folder and its `mkdir` throws |
| WebContainerRuntime.WriteError | features/webContainers/hooks/useWebContainer.ts:100-110 | nothing is thrown exactly when the `mkdir` (if made) and the write succeed; otherwise the first failing call's cause is rethrown with the path |
| WebContainerRuntime.OneLevelWritePlan | features/webContainers/hooks/useWebContainer.ts:96-104 | a file one folder deep, such as `app/page.tsx`, is written by one `mkdir` of that folder followed by the write |
| WebContainerRuntime.WriteFailure | features/webContainers/hooks/useWebContainer.ts:107-109 | the rethrown message is longer than the path it names |
| WebContainerRuntime.WriteFailureLayout | features/webContainers/hooks/useWebContainer.ts:107-109 | the rethrown message is exactly "Failed to write file at ", the path, ": " and the cause (the `Error`'s message, else "Failed to write file"), and its length is the sum of theirs |
| WebContainerRuntime.Ancestors | features/webContainers/hooks/useWebContainer.ts:101 | a recursive `mkdir` creates the directory itself |
| WebContainerRuntime.AncestorsMembers | features/webContainers/hooks/useWebContainer.ts:101 | a recursive `mkdir` of a directory creates exactly that directory and each of its prefixes that a "/" follows, and nothing else |
| WebContainerRuntime.RuntimeSession.constructor | features/webContainers/hooks/useWebContainer.ts:48-51 | no instance, no pending boot, loading, no error, empty filesystem |
| WebContainerRuntime.RuntimeSession.GetWebContainerInstance | features/webContainers/hooks/useWebContainer.ts:9-21 | a cached instance is returned without booting; a pending boot is shared rather than duplicated; otherwise one new boot starts |
| WebContainerRuntime.RuntimeSession.BootSettled | features/webContainers/hooks/useWebContainer.ts:22-28 | a successful boot is cached; a failed one clears the pending boot, so a later call boots afresh, and is rethrown |
| WebContainerRuntime.RuntimeSession.InitialiseSettled | features/webContainers/hooks/useWebContainer.ts:56-74 | once mounted, loading ends with the instance stored or the error message set; after unmount nothing changes |
| WebContainerRuntime.RuntimeSession.WriteFileSync | features/webContainers/hooks/useWebContainer.ts:90-112 | with no instance it fails with "WebContainer instance not available" and makes no call; otherwise it makes a prefix of the planned calls; it succeeds exactly when those calls succeed; on success the file map gains exactly `path := content`; any failure is rethrown with the path |
| WebContainerRuntime.RuntimeSession.Destroy | features/webContainers/hooks/useWebContainer.ts:114-123 | with an instance it tears it down and clears the instance, server URL, global instance and pending boot; without one nothing changes |
| ChatRoute.Get | app/api/chat/route.ts:159 | an object field is present exactly when its key is, and then it is that field's value; an array reads the element at a canonical decimal index below its length; every other value reads as undefined |
| ChatRoute.GetIndex | app/api/chat/route.ts:86 | element `i` of an array is read by the key `String(i)`; past the end the read gives undefined |
| ChatRoute.ToJsString | app/api/chat/route.ts:52 | converting a value to a string throws the `TypeError` "Cannot convert object to primitive value" exactly when it is, or is an array holding, an object with its own `toString` field; a string converts to itself and any other object to "[object Object]" |
| ChatRoute.SystemPrompt | app/api/chat/route.ts:52 | a mode that cannot be converted to a key throws the `TypeError`; otherwise "review", "fix" and "optimize" select their prompts, an inherited `Object.prototype` name selects that member, and any other key, an absent mode included, falls back to the chat prompt |
| ChatRoute.SystemPromptExamples | app/api/chat/route.ts:52 | a missing mode, null, or an unknown name gives the chat prompt; `["fix"]` converts to the key "fix"; `{"toString":1}` throws |
| ChatRoute.ValidHistory | app/api/chat/route.ts:165-174 | a non-array history gives no entries; an array is filtered |
| ChatRoute.KeepValid | app/api/chat/route.ts:166-173 | an entry is kept exactly when it is present and well formed (an object with string role "user" or "assistant" and string content); the result is never longer |
| ChatRoute.KeepValidAppend | app/api/chat/route.ts:166-173 | the filter distributes over concatenation, so the original order is kept |
| ChatRoute.KeepValidWhole | app/api/chat/route.ts:166-173 | a history of valid entries is kept whole, and filtering is idempotent |
| ChatRoute.LastN | app/api/chat/route.ts:176 | `slice(-n)` is the suffix of length min(n, length) |
| ChatRoute.Conversation | app/api/chat/route.ts:176-177 | at most 11 messages: the last ten kept entries, then the new user message last |
| ChatRoute.GroqErrorMessage | app/api/chat/route.ts:80-83 | a null error body makes reading `error` throw the `TypeError`; a truthy error message that cannot be converted makes the template throw the conversion `TypeError`; otherwise the message is "Groq API error: ", the status, " - ", then the error's message when truthy, else the status text |
| ChatRoute.GroqErrorExamples | app/api/chat/route.ts:80-83 | a Groq error object's message is reported; an unreadable body falls back to the status text; a message object with its own `toString` field gives the conversion `TypeError` |
| ChatRoute.FirstContent | app/api/chat/route.ts:86 | a first content exists only when `choices` can be indexed, and never for a value that is neither an object nor an array |
| ChatRoute.ReadCompletion | app/api/chat/route.ts:85-89 | a null reply or unindexable `choices` fails with the `TypeError`; reading succeeds exactly when the first content is falsy or a string, and a truthy non-string content fails with "aiResponse.trim is not a function"; the response is the trimmed first content, or "" when it is falsy; the tokens are `total_tokens` when truthy, else 0; the model is "Llama 3.3 70B" |
| ChatRoute.ReadCompletionOfContent | app/api/chat/route.ts:85-89 | a reply whose first content is the string `t` and whose total is `n` reads as `t` trimmed, `n` tokens and the model name |
| ChatRoute.ReadCompletionOfReply | app/api/chat/route.ts:85-89 | a reply shaped as the chat-completions API sends it reads as its text trimmed and its token count |
| ChatRoute.GenerateAIResponse | app/api/chat/route.ts:52-93 | a mode that cannot be converted fails with the conversion `TypeError` before the key is checked; otherwise a missing key fails with the key message; a rejected fetch passes its error on; a non-ok reply fails with the Groq error message, which for a null body is the `TypeError` for reading `error`; an unreadable ok body passes its error on; a success is exactly what `ReadCompletion` reads from an ok reply's body |
| ChatRoute.EnhancePrompt | app/api/chat/route.ts:96-145 | building the instruction text throws the conversion `TypeError` exactly when the prompt cannot be converted; otherwise the result is the original prompt unless it is non-empty trimmed text from the reply, and a missing key or a failed or non-ok reply always gives the original prompt |
| ChatRoute.FirstContentOfReply | app/api/chat/route.ts:141 | for a reply shaped as the chat-completions API sends it, `choices[0].message.content` reads its text |
| ChatRoute.EnhanceUsesTrimmedContent | app/api/chat/route.ts:136-141 | with a key and an ok reply, string content is used trimmed when the trimmed text is non-empty and the original prompt is kept otherwise; missing or non-string content keeps the original prompt |
| ChatRoute.Post | app/api/chat/route.ts:148-199 | an unreadable or null body gives 500 and no call; "enhance" is routed to enhancement, which calls Groq only with a key and a convertible prompt, and answers 500 with the `TypeError` and no call otherwise; a missing or non-string message gives the 400 and no call; a chat call is made only with a key and a convertible mode, and carries the selected prompt and the shaped conversation; for a valid chat body, a successful generation gives the 200 reply with its response, tokens, model and timestamp, and a failed one the 500 with "Failed to generate AI response", its message as details and the timestamp |
| ChatRoute.MissingKeyChat | app/api/chat/route.ts:57-59 | without an API key, a valid chat request with a convertible mode makes no call and answers 500 with the key message |
| ChatRoute.UnconvertibleModeChat | app/api/chat/route.ts:52 | a valid chat request whose mode cannot be converted answers 500 with the conversion `TypeError` and makes no call, with or without a key |
| ChatRoute.UnconvertibleEnhancePrompt | app/api/chat/route.ts:96-99 | an enhancement request whose prompt cannot be converted answers 500 with the conversion `TypeError` and makes no call, with or without a key |
| ChatRoute.HiddenToStringBodies | app/api/chat/route.ts:52 | the bodies `{"message":"hi","mode":{"toString":1}}` and `{"action":"enhance","prompt":{"toString":1}}` answer 500 with the conversion `TypeError` and make no call |

## Findings

| source | as written | input that shows it | evidently intended | confidence | as-written member | corrected member |
|---|---|---|---|---|---|---|
| features/AIChat/Hooks/useAiSuggestion.tsx:117-147 | the `useCallback` body only creates an arrow function taking `(editor, monaco)` and never calls it | any shown suggestion, with an editor and Monaco: accepting leaves the suggestion in place and inserts nothing | insert the sanitised suggestion at its position and dismiss it | not executed; high, since the inner function is never invoked | AiSuggestion.AcceptKeepsSuggestion | AiSuggestion.AcceptUpdateIntended |
| features/playground/lib/index.ts:79-92 | the identity loop descends into each subfolder with the full two-pass search, so a value copy in an earlier subfolder is returned before the object itself in a later one | root with folder `a` holding a copy of `index.ts`, then folder `b` holding the object: the result is "a/index.ts" | the object's own path "b/index.ts" first ("exact object match"), value copies only as a fallback | not executed; medium, the comments at lines 84 and 94 state identity first | FileTree.EarlierCopyBeatsIdentity | FileTree.FindFilePathIdentityFirst |
| features/playground/components/PlaygroundEditor.tsx:99 | the item kind is read as `monaco.languages.CompletedItemKind.Snippet`; Monaco defines `CompletionItemKind`, so the read throws, and type errors are ignored at build (next.config.ts:4-6) | a truthy suggestion with the cursor at its position: the provider's promise rejects after writing the current-suggestion ref | return the one item with kind `CompletionItemKind.Snippet` | not executed; medium-high, depends on the Monaco build in use | InlineCompletion.AsWrittenNeverOffers | InlineCompletion.ProvideItems |
| features/AIChat/Hooks/useAiSuggestion.tsx:64-69 | `const newState = {...currenState, isLoading: true}` has no semicolon and the next statement starts with `(`, so lines 64-111 parse as a call of the object literal; the `//@ts-ignore` at line 63 and the ignored build errors (next.config.ts:4-6) let it through | any enabled state with an editor that has a model and a cursor: the updater throws a `TypeError`, no request is sent and `isLoading` stays false | set `isLoading`, then send the request and store the trimmed suggestion when it arrives | not executed; high, this follows from the JavaScript grammar alone | AiSuggestion.FetchStartNeverSends | AiSuggestion.FetchStartUpdateIntended |

Each of the four places is modelled twice, as written and as evidently intended:

- The hook's `FetchSuggestion` ends as `FetchStartUpdate` does, which throws once the checks pass. `FetchSuggestionIntended` applies `FetchStartUpdateIntended`, and `CompleteFetch` continues it.
- The hook's `AcceptSuggestion` applies `AcceptUpdate`, which changes nothing. `AcceptSuggestionIntended` applies `AcceptUpdateIntended`.
- `GenerateFileId` locates the file with `FindFilePath`, the search as written. `GenerateFileIdIntended` uses `FindFilePathIdentityFirst` instead.
- The provider method `ProvideInlineCompletions` settles as `ProvideAsWritten` does. `ProvideInlineCompletionsIntended` returns `ProvideItems`.

`FindFilePathCorrect`, `IdentityFirstAtLevel` and `ValueFallbackAtLevel` state what the search as written guarantees.

## Left out

- Network I/O is not modelled:
  - The calls to `/api/code-suggestion` and to the Groq API are inputs. The suggestion hook takes the response's `suggestion` field, with `None` for any failure. The route takes a settled reply or the rejection's message.
  - The JSON bodies are not serialised or parsed. The route takes the outcome of `req.json()` as a `Json` value or a parse error message.
- The text of the four system prompts and of the enhancement prompt is not modelled; a prompt is named by its kind. The request's model name, temperature, `max_tokens` and `top_p` are left out too (floating point).
- ChatRoute.Json: numbers are integers only. A fractional or non-finite number is not modelled, nor is its `String` conversion.
- ToJsString: an integer of magnitude 10^21 or more is written out in full, where JavaScript switches to exponent notation ("1e+21").
- ChatRoute.Get: only the value's own fields are read. Properties of string primitives, an array's `length` and members inherited from `Object.prototype` are all taken as undefined. The one exception is the prompt table, where `SystemPrompt` models the inherited names.
- ChatRoute.Post: the `details` of a `TypeError` raised by reading from a null body is V8's message, which is engine-specific. The non-Error branch ("Unknown error occurred") cannot arise in the model: every failure it models is an `Error`.
- The route's `GET` handler and the timestamps are left out; `new Date().toISOString()` is a parameter.
- `Date.now()` and `Math.random()` have no value-level meaning here. They appear only as the opaque `stamp` of `GenerateFileId` and the `freshId` of `ProvideInlineCompletions`.
- Monaco and editor calls are reduced to a presence flag or an opaque handle: `executeEdits`, `deltaDecorations`, `configureMonaco`, `updateEditorLanguage`, the provider's label, detail and sort fields, and the `Editor` component. `DismissUpdate` returns the decorations that would be handed to `deltaDecorations`.
- WebContainer boot, teardown and filesystem internals are not modelled. The filesystem is a map and a directory set, and a rejected `mkdir` is taken to create nothing.
- The interleavings of concurrent callers awaiting the shared boot are not modelled. `GetWebContainerInstance` and `BootSettled` are the two sequential halves of one call.
- React's handling of an updater that throws is not modelled. React rethrows the error while rendering, and an error boundary or the page handles it. The model records only that the updater threw and that the state cell is not updated.
- React's rendering, effects, dependency arrays and StrictMode double invocation of updaters are not modelled. An updater runs once per call.
- FileTree.ContentHash: a lone surrogate in a string cannot be represented. Dafny's `char` is a Unicode scalar value, so every character maps to one or two UTF-16 code units.
- FileTree.FindFilePath: the property that the search leaves the tree unchanged holds by construction, since trees are values.
