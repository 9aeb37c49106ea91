# NoteMaster core in Dafny

NoteMaster is a desktop note-taking app. This project models its core in Dafny:

- **The note store** (`src/store/index.ts`). It is a single mutable object holding:
  - folders, which form a forest linked by `parentId`;
  - notes, each filed in one folder and each owning its own AI conversation;
  - the selection, the user configuration, a global AI conversation and two panel flags.

  Every store action is a pure transition in module `StoreModel`. Class `Store.AppStore` runs each action as a `modifies this` method; every method is proved to reach exactly the state of its transition and to keep folder ids and note ids distinct. Deleting a folder first collects the folder's descendant closure with a worklist (`FolderTree.CollectFolderIds`), proved equal to the least `parentId`-closed set holding the folder.
- **The AI panel's send logic** (`src/components/AIPanel.tsx`), in module `AIPanel`:
  - the thread the panel shows and sends to;
  - the blank-input and missing-key guards;
  - the outbound turns: system prompt, the last ten messages, then the user turn;
  - the request envelope for each provider;
  - the ranking of the reply fields into the one assistant message;
  - the quick actions.

  Class `AIPanel.ChatPanel` holds the component's own state (`input`, `isLoading`, `error`). It splits `handleSend` at the awaited request into `Send` and `Receive`.
- **Note export** (`src/utils/export.ts`), in module `Export`:
  - the file name sanitiser and its fallback;
  - each format's extension, MIME type and content;
  - the last two passes of the plain-text conversion: newline runs collapse and the text is trimmed.
- **Record shapes** (`src/types/index.ts`), in module `Types`, with the string encodings of roles, themes and providers.

Modules follow the files: `Types`; `Seqs` (`filter` and a conditional `map`); `Strings` (JavaScript `trim`); `FolderTree`; `StoreModel`; `Store`; `AIPanel`; `Export`.

Ids from `uuidv4()` and times from `Date.now()` are parameters. Store methods that create a folder or a note require its id to be unused; message ids are not checked.

Three behaviours of the code are easy to misread; the model follows the code in each:

- **The outbound window.** The window sent to the provider is the last ten messages of the thread as rendered, before the new user message is appended.
- **`deleteFolder` and the folder selection.** `deleteFolder` never touches `selectedFolderId`, even when the selected folder is deleted.
- **`clearAIMessages`.** It keeps the note's messages (`aiMessages: n.aiMessages || []`) and only refreshes `updatedAt`.

## Model

| member | source | states |
|---|---|---|
| Types.RoleName | src/types/index.ts:32 | a role is encoded as `user` or `assistant`, never as anything else |
| Types.ParseRole | src/types/index.ts:32 | a string is a role exactly when it is `user` or `assistant` (so `system` is not) |
| Types.RoleRoundTrip | src/types/index.ts:32 | parsing a role's encoding gives back the role |
| Types.ThemeName | src/types/index.ts:24 | a theme is encoded as one of `light`, `dark`, `system` |
| Types.ParseTheme | src/types/index.ts:24 | a string is a theme exactly when it is one of the three literals |
| Types.ThemeRoundTrip | src/types/index.ts:24 | parsing a theme's encoding gives back the theme |
| Types.ProviderName | src/store/index.ts:57 | a provider is encoded as `minimax`, `kimi` or `glm` |
| Types.ParseProvider | src/store/index.ts:57 | a string is a provider exactly when it is one of the three literals |
| Types.ProviderRoundTrip | src/store/index.ts:57 | parsing a provider's encoding gives back the provider |
| Seqs.Filter | src/store/index.ts:157 | `filter` keeps exactly the elements satisfying the predicate and never grows the list |
| Seqs.MapIf | src/store/index.ts:144-146 | the conditional `map` keeps the length and rewrites exactly the matching positions |
| Seqs.FilterIsSubsequence | src/store/index.ts:168-169 | filtering keeps the survivors in their original order |
| Seqs.FilterAppend | src/store/index.ts:168-169 | filtering a concatenation is the concatenation of the filtered parts |
| Seqs.FilterAll | src/store/index.ts:168-169 | a filter every element passes returns the whole list |
| Seqs.FilterNone | src/store/index.ts:168-169 | a filter no element passes returns the empty list |
| Seqs.FilterKeepsDistinct | src/store/index.ts:168-169 | filtering keeps distinct keys distinct |
| Seqs.MapIfKeepsDistinct | src/store/index.ts:144-146 | a rewrite that keeps each key keeps distinct keys distinct |
| Strings.TrimStart | src/components/AIPanel.tsx:49 | the result is a suffix of the input without leading whitespace; everything dropped is whitespace |
| Strings.TrimEnd | src/components/AIPanel.tsx:49 | the result is a prefix of the input without trailing whitespace; everything dropped is whitespace |
| Strings.Trim | src/components/AIPanel.tsx:49 | `trim` returns a slice of the input with only whitespace around it, and the slice has no whitespace at either end |
| Strings.TrimEmptyIffBlank | src/components/AIPanel.tsx:49 | a string trims to empty exactly when every character is whitespace |
| Strings.TrimIdempotent | src/utils/export.ts:75 | trimming twice is trimming once |
| FolderTree.Saturate | src/store/index.ts:154-159 | growing the set level by level ends in a closed superset that adds only folder ids |
| FolderTree.Descendants | src/store/index.ts:154-160 | the closure holds the root, adds only folder ids, and is closed under `parentId` |
| FolderTree.SaturateLeast | src/store/index.ts:154-159 | every closed set containing the start set contains what saturation reaches |
| FolderTree.DescendantsLeast | src/store/index.ts:154-160 | the closure is the least closed set holding the root |
| FolderTree.DescendantsOfLeaf | src/store/index.ts:154-160 | a folder that is nobody's parent has only itself as its closure |
| FolderTree.CollectFolderIds | src/store/index.ts:153-160 | the worklist walk returns exactly the closure of the root |
| StoreModel.InitializeData | src/store/index.ts:73-127 | `initializeData` as a transition; its contract is carried by StoreModel.InitializeDataPopulatesEmpty, StoreModel.InitializeDataNoopUnlessEmpty and StoreModel.InitializeDataIdempotent |
| StoreModel.AddFolder | src/store/index.ts:129-140 | `addFolder`; carried by StoreModel.AddFolderAppends, StoreModel.AddFolderThenDelete and StoreModel.AddFolderKeepsValid |
| StoreModel.UpdateFolder | src/store/index.ts:142-148 | `updateFolder`; carried by StoreModel.UpdateFolderMerges, StoreModel.UpdateFolderMissingIsNoop and StoreModel.UpdateFolderKeepsValid |
| StoreModel.DeleteFolder | src/store/index.ts:150-176 | `deleteFolder` over the descendant closure; carried by StoreModel.DeleteFolderRemovesClosure, StoreModel.DeleteFolderRemovesNotes, StoreModel.DeleteFolderSelection and StoreModel.DeletionsKeepValid |
| StoreModel.ToggleFolderExpanded | src/store/index.ts:178-184 | `toggleFolderExpanded`; carried by StoreModel.ToggleFolderExpandedFlips, StoreModel.ToggleFolderExpandedTwice and StoreModel.ToggleFolderExpandedKeepsValid |
| StoreModel.AddNote | src/store/index.ts:186-203 | `addNote`; carried by StoreModel.AddNoteAppendsAndSelects, StoreModel.AddNoteThenDelete and StoreModel.AddNoteKeepsValid |
| StoreModel.UpdateNote | src/store/index.ts:205-211 | `updateNote`; carried by StoreModel.UpdateNoteMerges, StoreModel.UpdateNoteMissingIsNoop and StoreModel.UpdateNoteKeepsValid |
| StoreModel.DeleteNote | src/store/index.ts:213-218 | `deleteNote`; carried by StoreModel.DeleteNoteRemoves and StoreModel.DeletionsKeepValid |
| StoreModel.SelectNote | src/store/index.ts:220-222 | `selectNote`; carried by StoreModel.TransientActionsKeepPersisted (the selection becomes the argument, nothing persisted changes) |
| StoreModel.ToggleFavorite | src/store/index.ts:224-230 | `toggleFavorite`; carried by StoreModel.ToggleFavoriteFlips, StoreModel.ToggleFavoriteTwice and StoreModel.ToggleFavoriteKeepsValid |
| StoreModel.MoveNote | src/store/index.ts:232-240 | `moveNote`; carried by StoreModel.MoveNoteRefiles, StoreModel.MoveNoteMissingIsNoop and StoreModel.MoveNoteKeepsValid |
| StoreModel.UpdateConfig | src/store/index.ts:242-246 | `updateConfig`; carried by StoreModel.UpdateConfigMerges |
| StoreModel.AddAIMessage | src/store/index.ts:248-261 | `addAIMessage`; carried by StoreModel.AddAIMessageIsolated and StoreModel.AddAIMessageKeepsValid |
| StoreModel.ClearAIMessages | src/store/index.ts:263-271 | `clearAIMessages` as written; carried by StoreModel.ClearAIMessagesKeepsThread and StoreModel.ClearAIMessagesKeepsValid |
| StoreModel.AddGlobalAIMessage | src/store/index.ts:273-282 | `addGlobalAIMessage`; carried by StoreModel.AddGlobalAIMessageIsolated |
| StoreModel.ClearGlobalAIMessages | src/store/index.ts:284-286 | `clearGlobalAIMessages`; carried by StoreModel.ClearGlobalAIMessagesEmpties |
| StoreModel.ToggleAIPanel | src/store/index.ts:288-290 | `toggleAIPanel`; carried by StoreModel.TransientActionsKeepPersisted (the open flag flips, twice is the identity, nothing persisted changes) |
| StoreModel.SetAIPanelExpanded | src/store/index.ts:292-294 | `setAIPanelExpanded`; carried by StoreModel.TransientActionsKeepPersisted (the expanded flag becomes the argument, nothing persisted changes) |
| StoreModel.Partialize | src/store/index.ts:296-303 | the `partialize` projection; carried by StoreModel.PartializeIsDurableSubset and StoreModel.TransientActionsKeepPersisted |
| StoreModel.NotesIn | src/store/index.ts:163-165 | the ids of the notes filed in a doomed folder; carried by StoreModel.DeleteFolderRemovesNotes |
| StoreModel.FoldersOutside | src/store/index.ts:168 | the folders whose id is outside a set; carried by StoreModel.DeleteFolderRemovesClosure and StoreModel.AddFolderThenDelete |
| StoreModel.NotesWithout | src/store/index.ts:169 | the notes whose id is outside a set; carried by StoreModel.DeleteFolderRemovesNotes and StoreModel.DeleteNoteRemoves |
| StoreModel.SelectionAfter | src/store/index.ts:170-173 | the note selection after a folder deletion, with JavaScript truthiness; carried by StoreModel.DeleteFolderSelection |
| StoreModel.PatchFolder | src/store/index.ts:145 | the spread of a folder patch with a new `updatedAt`; carried by StoreModel.UpdateFolderMerges |
| StoreModel.PatchNote | src/store/index.ts:208 | the spread of a note patch with a new `updatedAt`; carried by StoreModel.UpdateNoteMerges |
| StoreModel.InitializeDataPopulatesEmpty | src/store/index.ts:73-127 | on an empty store: one root folder `我的笔记`, one welcome note filed in it, both selected, nothing else changed |
| StoreModel.InitializeDataNoopUnlessEmpty | src/store/index.ts:74-75 | with any folder or note present, initialisation changes nothing |
| StoreModel.InitializeDataIdempotent | src/store/index.ts:73-127 | a second initialisation, whatever its ids and clock, changes nothing |
| StoreModel.AddFolderAppends | src/store/index.ts:129-140 | one expanded folder with the given (unchecked) parent is appended; everything else is unchanged |
| StoreModel.AddFolderThenDelete | src/store/index.ts:129-176 | deleting a folder just added under a fresh id restores the store |
| StoreModel.UpdateFolderMerges | src/store/index.ts:142-148 | the matching folder takes the patch's fields and `updatedAt := now`; every other folder is unchanged |
| StoreModel.UpdateFolderMissingIsNoop | src/store/index.ts:142-148 | updating an absent id changes nothing |
| StoreModel.DeleteFolderRemovesClosure | src/store/index.ts:150-176 | the survivors are exactly the folders outside the closure, in order; none has a parent in the closure; the folder selection and everything else are kept |
| StoreModel.DeleteFolderRemovesNotes | src/store/index.ts:162-169 | no surviving note is filed in the closure; survivors keep their order; with distinct ids every note outside the closure survives |
| StoreModel.DeleteFolderSelection | src/store/index.ts:170-173 | the note selection is cleared exactly when the selected (non-empty) id was a deleted note, and is kept otherwise |
| StoreModel.ToggleFolderExpandedFlips | src/store/index.ts:178-184 | flips `isExpanded` on the matching folder only, touching no other field |
| StoreModel.ToggleFolderExpandedTwice | src/store/index.ts:178-184 | toggling twice is the identity |
| StoreModel.AddNoteAppendsAndSelects | src/store/index.ts:186-203 | one empty, unfavourited, untagged note (default title `新建笔记`) is appended and selected; existing notes are unchanged |
| StoreModel.AddNoteThenDelete | src/store/index.ts:186-218 | deleting a note just added under a fresh id restores the notes and leaves nothing selected |
| StoreModel.UpdateNoteMerges | src/store/index.ts:205-211 | the matching note takes the patch's fields and `updatedAt := now`, keeping its id; other notes are unchanged |
| StoreModel.UpdateNoteMissingIsNoop | src/store/index.ts:205-211 | updating an absent id changes nothing |
| StoreModel.DeleteNoteRemoves | src/store/index.ts:213-218 | the survivors are the notes with another id, in order; the selection is cleared exactly when it was that note; otherwise the selection is kept, and every other field of the store is unchanged |
| StoreModel.ToggleFavoriteFlips | src/store/index.ts:224-230 | flips `isFavorite` on the matching note only, without touching `updatedAt` |
| StoreModel.ToggleFavoriteTwice | src/store/index.ts:224-230 | toggling twice is the identity |
| StoreModel.MoveNoteRefiles | src/store/index.ts:232-240 | the matching note gets the target folder and `updatedAt := now`; other notes are unchanged |
| StoreModel.MoveNoteMissingIsNoop | src/store/index.ts:232-240 | moving an absent id changes nothing |
| StoreModel.UpdateConfigMerges | src/store/index.ts:242-246 | each config field takes the patch's value when present; an empty patch is the identity |
| StoreModel.AddAIMessageIsolated | src/store/index.ts:248-261 | the message is appended only to the matching note's thread, which alone gets a new `updatedAt`; other notes and the global thread are unchanged |
| StoreModel.ClearAIMessagesKeepsThread | src/store/index.ts:263-271 | as written, the note's thread is kept and only `updatedAt` changes |
| StoreModel.AddGlobalAIMessageIsolated | src/store/index.ts:273-282 | the message is appended to the global thread only |
| StoreModel.ClearGlobalAIMessagesEmpties | src/store/index.ts:284-286 | the global thread becomes empty and nothing else changes |
| StoreModel.PartializeIsDurableSubset | src/store/index.ts:296-303 | two states persist alike exactly when they agree on folders, notes, config and the global thread |
| StoreModel.TransientActionsKeepPersisted | src/store/index.ts:220-222 | selecting a note and the two panel actions leave the persisted subset unchanged |
| StoreModel.AddFolderKeepsValid | src/store/index.ts:129-140 | a fresh folder id keeps the ids distinct |
| StoreModel.AddNoteKeepsValid | src/store/index.ts:186-203 | a fresh note id keeps the ids distinct |
| StoreModel.DeletionsKeepValid | src/store/index.ts:150-218 | deleting folders or notes keeps the ids distinct |
| StoreModel.UpdateFolderKeepsValid | src/store/index.ts:142-148 | a folder update keeps the ids distinct |
| StoreModel.ToggleFolderExpandedKeepsValid | src/store/index.ts:178-184 | toggling keeps the ids distinct |
| StoreModel.UpdateNoteKeepsValid | src/store/index.ts:205-211 | a note update keeps the ids distinct |
| StoreModel.ToggleFavoriteKeepsValid | src/store/index.ts:224-230 | toggling keeps the ids distinct |
| StoreModel.MoveNoteKeepsValid | src/store/index.ts:232-240 | moving keeps the ids distinct |
| StoreModel.AddAIMessageKeepsValid | src/store/index.ts:248-261 | appending to a note's thread keeps the ids distinct |
| StoreModel.ClearAIMessagesKeepsValid | src/store/index.ts:263-271 | clearing a note's thread keeps the ids distinct |
| StoreModel.WelcomeScenario | src/store/index.ts:73-203 | initialise, add a note to the welcome folder (it becomes selected), delete that folder: no folder or note is left and nothing is selected |
| Store.AppStore.constructor | src/store/index.ts:53-71 | the initial state: nothing stored or selected, default config (light, 15, 3000, minimax, no key), panel open and expanded |
| Store.AppStore.InitializeData | src/store/index.ts:73-127 | the new state is `StoreModel.InitializeData` of the old one; ids stay distinct |
| Store.AppStore.AddFolder | src/store/index.ts:129-140 | the new state is `StoreModel.AddFolder` of the old one; ids stay distinct |
| Store.AppStore.UpdateFolder | src/store/index.ts:142-148 | the new state is `StoreModel.UpdateFolder` of the old one; ids stay distinct |
| Store.AppStore.DeleteFolder | src/store/index.ts:150-176 | collects the closure, then reaches `StoreModel.DeleteFolder` of the old state; ids stay distinct |
| Store.AppStore.ToggleFolderExpanded | src/store/index.ts:178-184 | the new state is `StoreModel.ToggleFolderExpanded` of the old one |
| Store.AppStore.AddNote | src/store/index.ts:186-203 | the new state is `StoreModel.AddNote` of the old one; ids stay distinct |
| Store.AppStore.UpdateNote | src/store/index.ts:205-211 | the new state is `StoreModel.UpdateNote` of the old one |
| Store.AppStore.DeleteNote | src/store/index.ts:213-218 | the new state is `StoreModel.DeleteNote` of the old one |
| Store.AppStore.SelectNote | src/store/index.ts:220-222 | only the note selection changes |
| Store.AppStore.ToggleFavorite | src/store/index.ts:224-230 | the new state is `StoreModel.ToggleFavorite` of the old one |
| Store.AppStore.MoveNote | src/store/index.ts:232-240 | the new state is `StoreModel.MoveNote` of the old one |
| Store.AppStore.UpdateConfig | src/store/index.ts:242-246 | the new state is `StoreModel.UpdateConfig` of the old one |
| Store.AppStore.AddAIMessage | src/store/index.ts:248-261 | the new state is `StoreModel.AddAIMessage` of the old one |
| Store.AppStore.ClearAIMessages | src/store/index.ts:263-271 | the new state is `StoreModel.ClearAIMessages` of the old one |
| Store.AppStore.AddGlobalAIMessage | src/store/index.ts:273-282 | the new state is `StoreModel.AddGlobalAIMessage` of the old one |
| Store.AppStore.ClearGlobalAIMessages | src/store/index.ts:284-286 | the new state is `StoreModel.ClearGlobalAIMessages` of the old one |
| Store.AppStore.ToggleAIPanel | src/store/index.ts:288-290 | only the open flag flips |
| Store.AppStore.SetAIPanelExpanded | src/store/index.ts:292-294 | only the expanded flag changes |
| AIPanel.ModelName | src/components/AIPanel.tsx:8-21 | each provider's model name; carried by AIPanel.ProviderTableDistinct and AIPanel.BuildRequestBody |
| AIPanel.ProviderLabel | src/components/AIPanel.tsx:56 | the provider's display name in the missing-key error; carried by AIPanel.ProviderTableDistinct and AIPanel.PlanSendNeedsKey |
| AIPanel.ThreadOf | src/components/AIPanel.tsx:33 | the thread of a target (the global thread, or the note's thread or empty); carried by AIPanel.RenderedThreadIsTargetThread and AIPanel.PostAppendsOne |
| AIPanel.RenderedThread | src/components/AIPanel.tsx:31-33 | the thread on screen; carried by AIPanel.RenderedThreadIsTargetThread |
| AIPanel.Post | src/components/AIPanel.tsx:66-70 | posting a message to a captured target (also at lines 135-141 and 155-158); carried by AIPanel.PostAppendsOne, AIPanel.PostToMissingNote, AIPanel.PostIgnoresSelection and AIPanel.PostKeepsReachable |
| AIPanel.BuildRequest | src/components/AIPanel.tsx:75-128 | the endpoint, key and body of the request; carried by AIPanel.PlanSendDispatch |
| AIPanel.MissingKeyError | src/components/AIPanel.tsx:56-57 | the missing-key message; carried by AIPanel.PlanSendNeedsKey |
| AIPanel.PlanSend | src/components/AIPanel.tsx:44-72 | the decision `handleSend` takes before the request; carried by AIPanel.PlanSendIgnoresBlank, AIPanel.PlanSendNeedsKey, AIPanel.PlanSendDispatch and AIPanel.GlobalSendIsPlain |
| AIPanel.ReplyText | src/components/AIPanel.tsx:143-159 | the assistant message for a response or a failure; carried by AIPanel.ReplyTextNonEmpty, AIPanel.ReplyPriority and AIPanel.ReplyDiagnosticBounded |
| AIPanel.QuickActionInput | src/components/AIPanel.tsx:179-183 | the input a quick action produces; carried by AIPanel.QuickActionQuotesPrefix |
| AIPanel.Endpoint | src/components/AIPanel.tsx:8-21 | each provider's endpoint is `/api/` followed by the provider's name |
| AIPanel.ProviderTableDistinct | src/components/AIPanel.tsx:8-21 | providers have pairwise different endpoints, models and labels |
| AIPanel.TargetOf | src/components/AIPanel.tsx:34 | the mode is global exactly when the selection is null or empty; otherwise the target is the selected id |
| AIPanel.FirstMatch | src/components/AIPanel.tsx:31 | the index of the first note carrying the id, or the length when there is none |
| AIPanel.FindNote | src/components/AIPanel.tsx:31 | `find` returns a note of the list with the selected id, and returns nothing exactly when no note has that id or nothing is selected |
| AIPanel.FirstMatchSameIds | src/components/AIPanel.tsx:31 | the first match depends only on the ids, in order |
| AIPanel.RenderedThreadIsTargetThread | src/components/AIPanel.tsx:31-34 | the thread on screen is the thread sends go to |
| AIPanel.PostAppendsOne | src/components/AIPanel.tsx:66-70 | a post adds exactly one message at the end of the target thread and leaves the selection, folders, config and flags alone |
| AIPanel.PostToMissingNote | src/components/AIPanel.tsx:66-70 | posting to a note that no longer exists changes nothing |
| AIPanel.PostIgnoresSelection | src/components/AIPanel.tsx:135-141 | where a post lands does not depend on the current selection |
| AIPanel.PostKeepsReachable | src/components/AIPanel.tsx:66-70 | after a post the target thread is still there |
| AIPanel.ExchangeAppendsTwo | src/components/AIPanel.tsx:66-159 | a full exchange appends the user turn and then exactly one assistant turn to the captured thread, whatever is selected in between |
| AIPanel.ToWire | src/components/AIPanel.tsx:87-90 | one thread message as a wire turn (role and content); carried by AIPanel.OutboundShape |
| AIPanel.FinalUserContent | src/components/AIPanel.tsx:93 | the last user turn, with the note's content in front when it has any; carried by AIPanel.FinalUserContentCases |
| AIPanel.OutboundMessages | src/components/AIPanel.tsx:80-95 | the outbound list has `2 + min(n, 10)` entries |
| AIPanel.OutboundShape | src/components/AIPanel.tsx:80-95 | entry by entry: the mode's system prompt, the last `min(n, 10)` thread messages in order as role and content (never a system turn), then the user turn |
| AIPanel.OutboundDropsOldest | src/components/AIPanel.tsx:87 | a thread of fifteen contributes only its last ten messages |
| AIPanel.FinalUserContentCases | src/components/AIPanel.tsx:93 | the note content is prefixed exactly when the selected note has content; the question always ends the turn |
| AIPanel.BuildRequestBody | src/components/AIPanel.tsx:98-118 | the body carries the provider's model and the messages; `temperature` 0.7 is present exactly for Kimi and GLM |
| AIPanel.PlanSendIgnoresBlank | src/components/AIPanel.tsx:47-52 | a send is ignored exactly when the input is all whitespace |
| AIPanel.PlanSendNeedsKey | src/components/AIPanel.tsx:54-59 | a non-blank send without a key is refused, with an error that names the provider |
| AIPanel.PlanSendDispatch | src/components/AIPanel.tsx:61-128 | a dispatched send carries the trimmed input, the target at send time, the provider's endpoint and model, the bearer key, and turns built from the thread as rendered before the append |
| AIPanel.GlobalSendIsPlain | src/components/AIPanel.tsx:83-93 | with nothing selected, the global prompt is used and the question goes out as trimmed, after the global thread's tail |
| AIPanel.ReplyTextNonEmpty | src/components/AIPanel.tsx:144-158 | the assistant message is never empty |
| AIPanel.ReplyPriority | src/components/AIPanel.tsx:144-150 | a present choice wins over the status message, which wins over `msg`; lower-ranked fields do not matter once a higher one is present |
| AIPanel.ReplyFailureText | src/components/AIPanel.tsx:153-158 | a failed request posts `请求失败: ` followed by exactly the thrown error's message, or the network hint when the thrown value is not an `Error` |
| AIPanel.ReplyDiagnosticBounded | src/components/AIPanel.tsx:150-151 | otherwise the reply is the diagnostic prefix followed by exactly the first `min(200, n)` characters of the serialised response |
| AIPanel.QuickActionQuotesPrefix | src/components/AIPanel.tsx:179-183 | a quick action fires exactly when the selected note has content; the input becomes the prompt, a blank line, and the first `min(2000, n)` characters of the content |
| AIPanel.ChatPanel.constructor | src/components/AIPanel.tsx:25-27 | the box is empty, nothing is loading, no error is shown |
| AIPanel.ChatPanel.Send | src/components/AIPanel.tsx:44-128 | follows the send plan: the error is null, or the missing-key error; on dispatch the box is cleared, loading starts and the user turn is posted to the captured target; otherwise the store is unchanged |
| AIPanel.ChatPanel.Receive | src/components/AIPanel.tsx:130-162 | posts exactly the classified reply to the captured target and ends loading |
| AIPanel.ChatPanel.QuickAction | src/components/AIPanel.tsx:179-183 | sets the box to the quick-action text when there is one; otherwise leaves the box alone |
| Export.FileName | src/utils/export.ts:31 | the sanitised title or the fallback `未命名笔记`; carried by Export.FileNameCases |
| Export.Extension | src/utils/export.ts:13-23 | `md` or `txt`; carried by Export.DownloadNameParts |
| Export.MimeType | src/utils/export.ts:13-23 | the MIME type per format; carried by Export.ExportNoteContent |
| Export.DownloadName | src/utils/export.ts:32 | file name, dot, extension; carried by Export.DownloadNameParts |
| Export.ExportNote | src/utils/export.ts:8-37 | name, type and content of the download; carried by Export.ExportNoteContent |
| Export.Sanitize | src/utils/export.ts:31 | sanitising keeps the length and maps each forbidden character to `_`, keeping every other character |
| Export.SanitizeIsClean | src/utils/export.ts:31 | a sanitised name holds none of `\ / : * ? " < > \|` |
| Export.SanitizeFixesClean | src/utils/export.ts:31 | a clean name is unchanged, so sanitising is idempotent |
| Export.FileNameCases | src/utils/export.ts:31 | the file name is never empty and never holds a forbidden character; an empty title gives `未命名笔记`, any other title its sanitised form |
| Export.DownloadNameParts | src/utils/export.ts:13-23 | the download name is the file name, a dot, and the format's extension; the two formats give different names |
| Export.DropNewlines | src/utils/export.ts:74 | the rest after the leading newlines is no longer than the text and does not start with a newline |
| Export.DropNewlinesIsSuffix | src/utils/export.ts:74 | what is dropped is exactly a leading run of newlines: the rest is a suffix and everything before it is a newline |
| Export.CollapseBlankLines | src/utils/export.ts:74 | the result is no longer than the input; what it does to each run is carried by Export.CollapseRun and Export.CollapseAppend |
| Export.CollapseKeepsFirstTwo | src/utils/export.ts:74 | collapsing keeps the first two characters |
| Export.CollapseIsTripleFree | src/utils/export.ts:74 | collapsed text holds no run of three newlines |
| Export.Newlines | src/utils/export.ts:74 | a run of `k` newlines |
| Export.DropNewlinesOfRun | src/utils/export.ts:74 | dropping the newlines in front of text that starts otherwise leaves that text |
| Export.CollapseRun | src/utils/export.ts:74 | a run of three or more newlines in front of text not starting with a newline becomes exactly `\n\n` |
| Export.DropNewlinesAppend | src/utils/export.ts:74 | dropping leading newlines from a concatenation whose left part ends otherwise drops them from the left part |
| Export.CollapseAppend | src/utils/export.ts:74 | text ending in a non-newline collapses independently of what follows: the collapse of `x + z` is the collapse of `x` followed by the collapse of `z` |
| Export.CollapseExample | src/utils/export.ts:74 | `a\n\n\nb` collapses to `a\n\nb` |
| Export.CollapseKeepsTripleFree | src/utils/export.ts:74 | text with no run of three newlines is unchanged |
| Export.CollapseIdempotent | src/utils/export.ts:74 | collapsing twice is collapsing once |
| Export.WordsAppend | src/utils/export.ts:74 | leaving out newlines distributes over concatenation |
| Export.WordsOfDropNewlines | src/utils/export.ts:74 | dropping leading newlines loses no other character |
| Export.CollapseKeepsWords | src/utils/export.ts:74 | collapsing removes only newlines: every other character survives, in order |
| Export.SliceKeepsTripleFree | src/utils/export.ts:74-75 | a slice of triple-free text is triple-free |
| Export.TrimKeepsTripleFree | src/utils/export.ts:74-75 | trimming keeps text triple-free |
| Export.FinishPlainText | src/utils/export.ts:73-75 | the finished text has no run of three newlines and no whitespace at either end |
| Export.FinishPlainTextIdempotent | src/utils/export.ts:73-75 | finishing finished text changes nothing |
| Export.ExportNoteContent | src/utils/export.ts:8-32 | markdown exports the content verbatim as `text/markdown;charset=utf-8`; plain text exports finished text as `text/plain;charset=utf-8`; both are named after the title |

## Left out

- React rendering, hooks and effects: the scroll effect, the key handler and the JSX. Only the panel's `input`, `isLoading` and `error` state is modelled.
- `fetch`, `response.json()` and `JSON.stringify`. These are network I/O and serialisation. The parsed response appears as the four fields the classification reads, the serialised form as an opaque string, and a throw as an optional error message.
- `console.log` calls; they change no state.
- The zustand `persist` middleware's localStorage reads and writes. They are I/O; only the `partialize` projection is modelled.
- The rehydration merge of stored data into the initial state, which is part of that same I/O.
- `uuidv4()` and `Date.now()`. They are parameters. Store methods that create a folder or a note require its id to be unused. Message ids carry no such check, as in the source.
- `addAIMessage` reads the clock twice, once for the message and once for the note. A single `now` stands for both reads.
- The regex passes of `stripMarkdown` at src/utils/export.ts:45-72. They depend on lazy and multiline regex semantics, so their output is an opaque parameter of `Export.ExportNote`. Only the final collapse and trim are modelled.
- Blob, object-URL and DOM anchor download mechanics in `exportNote`. `Export.ExportNote` returns the name, type and content that would be downloaded.
- Full-state backup export and import. No such code exists in src/store/index.ts, src/components/AIPanel.tsx, src/utils/export.ts or src/types/index.ts, the files modelled.
- The `throw` for an unsupported provider (src/components/AIPanel.tsx:116-117). It cannot be reached in the model, because `Provider` has exactly the three cases and `Types.Config.aiProvider` is always set. In the source a config rehydrated without `aiProvider` would reach it; rehydration is left out (above).
- Types.Config carries `aiProvider`, which the declared `Config` type at src/types/index.ts:23-28 does not have. The field comes from `DEFAULT_CONFIG` (src/store/index.ts:57) and is read at src/components/AIPanel.tsx:56 and :75; the `AIProvider` type imported at src/components/AIPanel.tsx:4 is not exported by src/types/index.ts.
- StoreModel.UpdateFolder and StoreModel.UpdateNote take patches without `id`, and the folder patch also has no `parentId`. The source accepts any `Partial<Folder>` or `Partial<Note>`, through which a caller could duplicate an id or create a parent cycle. The UI passes only names and note fields.
- FolderTree.CollectFolderIds skips ids it has already collected; the source's recursion has no such check. With distinct ids the source's recursion never returns exactly when the deleted folder lies on a `parentId` cycle: it overflows the stack inside the state updater and deletes nothing, while the model deletes the closure. On every other graph, cyclic or not, both give the same set.
- Strings.Trim and the 200- and 2000-character cuts count Unicode scalar values. JavaScript counts UTF-16 code units, so the two differ on characters outside the Basic Multilingual Plane.
- AIPanel.TargetOf follows JavaScript truthiness: an empty-string selection counts as global mode. `find` still compares ids, so in that mode a note whose id is the empty string would lend its content to the user turn. `uuidv4()` ids are never empty.
- AIPanel.ChatPanel.Receive takes the target as a parameter, which the caller supplies from the `Dispatch` plan that `Send` returned. In the source each `handleSend` call keeps its own target in its closure, and overlapping sends can be in flight at once; the model does not track which target belongs to which pending request.
- Store.AppStore and AIPanel.ChatPanel method contracts use `old`, so their strength rests on the lemmas about the `StoreModel` and `AIPanel` functions they are tied to.
