# Blog manuscript assistant: a verified model of its core

The application helps a blog writer produce manuscripts with a text generator. A chat screen
sends a keyword with an optional reference text and receives the manuscript in parts. The
answers can be selected, copied, downloaded as text files or zipped. A published-items page
lists saved results, grouped by the blog post they went to. A search page pages through earlier
manuscripts. A bot panel logs in to the blog platform and uploads folders of manuscripts and
images. A browser extension keeps a queue of drafts and an event log in the extension's
storage.

This project models that logic in Dafny and proves what it promises. It covers:

- both chat stores, with the placement of answers in the message list, the registry of requests
  in flight, selection and the batch queue;
- the streaming reader, which cuts a response body into `data: ` frames;
- the lists kept in local storage: frequent keywords, saved and published items, search history;
- the extension's draft queue, its event log and its message dispatch;
- the bot panel's log, its log-in and log-out handlers and its folder upload;
- the file-name, keyword and markdown helpers;
- the published-list and search logic.

Objects whose state the source updates in place are classes with `modifies` clauses:
the stores, the stream hook, the storage, the worker and the registry. The helpers are
functions. Fresh ids, clock readings, abort controllers, HTTP results and the parsing of JSON
are parameters.

## Model

| member | source | states |
|---|---|---|
| StreamChat.Classify | src/hooks/useStreamChat.ts:86-113 | A frame is ignored exactly when it lacks the `data: ` prefix. It is the end signal exactly when the payload is `[DONE]`. Metadata needs a braced payload that parses to an object. Any other payload is text, and a braced text payload is one that failed to parse. |
| StreamChat.FoldAppend | src/hooks/useStreamChat.ts:86-114 | Folding two runs of frames in turn is folding their concatenation. |
| StreamChat.FoldDone | src/hooks/useStreamChat.ts:91-95 | After the end signal the loop has returned: further frames change nothing. |
| StreamChat.FeedAllDone | src/hooks/useStreamChat.ts:91-95 | After the end signal further chunks change nothing. |
| StreamChat.SplitAppend | src/hooks/useStreamChat.ts:80-84 | Appending text to the buffer only extends its last piece; the complete frames before it are cut the same way. |
| StreamChat.FeedAllIsFoldOfText | src/hooks/useStreamChat.ts:75-115 | After any sequence of reads, the state is the fold of the complete frames of all text received, and the buffer is its trailing piece. |
| StreamChat.ChunkingInvariant | src/hooks/useStreamChat.ts:75-127 | Two chunkings of the same body give the same content, manuscript id, error and callbacks. |
| StreamChat.SameAsWhole | src/hooks/useStreamChat.ts:75-127 | Reading a body chunk by chunk equals reading it in one piece. |
| StreamChat.AppendCall | src/hooks/useStreamChat.ts:111-112 | Each onChunk call carries, as full content, all chunk payloads so far. |
| StreamChat.AppendChunk | src/hooks/useStreamChat.ts:111-112 | A text frame keeps the content equal to the text reported through onChunk. |
| StreamChat.AppendComplete | src/hooks/useStreamChat.ts:91-94 | The end signal calls onComplete once, with the content and the manuscript id. |
| StreamChat.FoldConsistent | src/hooks/useStreamChat.ts:86-114 | Folding frames preserves that invariant. |
| StreamChat.FlushConsistent | src/hooks/useStreamChat.ts:117-127 | The leftover buffer and the completion preserve that invariant. |
| StreamChat.FeedAllConsistent | src/hooks/useStreamChat.ts:75-115 | The invariant holds after any sequence of reads. |
| StreamChat.RunCallbacks | src/hooks/useStreamChat.ts:29-138 | The content is the concatenation of the onChunk payloads, and every call but the last is onChunk. A stream that saw `[DONE]` or closed ends with exactly one onComplete. A failure that is not an abort ends with exactly one onError and stores its message. An abort calls neither. |
| StreamChat.FoldPrefixDone | src/hooks/useStreamChat.ts:91-95 | Frames after the end signal are never read. |
| StreamChat.FeedAllPrefixDone | src/hooks/useStreamChat.ts:91-95 | Chunks after the one holding the end signal are never read. |
| StreamChat.Run | src/hooks/useStreamChat.ts:29-138 | The reference semantics of one `startStream` call. StartStream, RunCallbacks and SameAsWhole state its properties. |
| StreamChat.StreamChat.constructor | src/hooks/useStreamChat.ts:27 | No controller, nothing aborted, an empty idle state. |
| StreamChat.StreamChat.StartStream | src/hooks/useStreamChat.ts:29-138 | The previous controller is aborted and the new one is held. The final state and the callbacks equal the reference semantics `Run`, and streaming has stopped. |
| StreamChat.StreamChat.Finish | src/hooks/useStreamChat.ts:117-137 | After the last read: a close flushes and completes, an abort stops quietly, any other failure records the error. |
| StreamChat.StreamChat.ReadFrames | src/hooks/useStreamChat.ts:86-114 | The inner loop leaves exactly the state of the fold, and reports whether it returned. |
| StreamChat.StreamChat.StopStream | src/hooks/useStreamChat.ts:140-146 | The held controller is aborted and dropped. Text, error and manuscript id are kept. |
| StreamChat.StreamChat.ResetStream | src/hooks/useStreamChat.ts:148-156 | Stops, then clears the state. |
| Messages.ErrorContent | src/stores/_chat.ts:183-186 | A failed answer shows a warning sign followed by the error message, or by the default text when the message is empty. |
| Messages.TrimmedParts | src/stores/_chat.ts:126-129 | The answer parts are exactly the non-empty trimmed pieces. |
| Messages.NonEmptySnoc | src/stores/_chat.ts:129 | `filter(Boolean)` keeps an appended string exactly when it is not empty. |
| Messages.TrimmedPartsSnoc | src/stores/_chat.ts:126-129 | No pieces give no parts, and one more piece adds its trimmed text at the end exactly when that text is not empty, so the parts keep the pieces' order. |
| Messages.IndexOfId | src/stores/_chat.ts:131-133 | `findIndex` on ids: the first position holding the id, and `None` exactly when no message has it. |
| ChatStore.RequestPair | src/stores/_chat.ts:77-97 | One request appends a user message and a bot placeholder with prefixed ids, the keyword and the reference, at progress 0. |
| ChatStore.ExpectedSeconds | src/stores/_chat.ts:107 | Every service has a positive expected time. |
| ChatStore.Settle | src/stores/_chat.ts:131-192 | The list once a request settled. Its properties are stated by SettleParts, SettleInPlace and TwoInFlight. |
| ChatStore.LoadingProgress | src/stores/_chat.ts:113-114 | The progress never exceeds 95. It is 95 once the expected time is 95% over. Otherwise it is the elapsed share rounded to the nearest integer. |
| ChatStore.Replies | src/stores/_chat.ts:134-160 | One bot message per part, in order, each with its fresh id, the request's keyword and reference, and the service. |
| ChatStore.SettleParts | src/stores/_chat.ts:131-160 | An answer of k > 0 parts is spliced where the placeholder is now. The list grows by k - 1, and every other message keeps its content and relative order. |
| ChatStore.SettleInPlace | src/stores/_chat.ts:161-192 | An empty answer, or a failure that is not an abort, rewrites the placeholder in place and keeps its id. An aborted failure, or a placeholder that is gone, changes nothing. |
| ChatStore.TwoInFlight | src/stores/_chat.ts:131-160 | Two overlapping requests each fill their own placeholder. The list ends with both exchanges complete. |
| ChatStore.UserMessageIds | src/stores/_chat.ts:57-59 | Exactly the non-empty ids of user messages. |
| ChatStore.Toggle | src/stores/_chat.ts:295-321 | Flips the id's membership in the selection and keeps it free of duplicates. |
| ChatStore.ToggleTwice | src/stores/_chat.ts:295-321 | Toggling twice restores the selection. |
| ChatStore.Serialize | src/stores/_chat.ts:500-509 | The stored array holds exactly the selected ids. |
| ChatStore.Deserialize | src/stores/_chat.ts:510-521 | Restoring gives a duplicate-free selection of the stored ids, and the empty one for a missing value. |
| ChatStore.SelectionRoundTrip | src/stores/_chat.ts:499-522 | Storing and restoring the selection gives it back unchanged. |
| ChatStore.RepliesFrom | src/stores/_chat.ts:335-361 | Collected answers are finished bot messages with the user's keyword, taken from the list. |
| ChatStore.NextUser | src/stores/_chat.ts:344-349 | The position where the loop breaks: the next user message, or the end of the list. |
| ChatStore.RepliesAtPositions | src/stores/_chat.ts:343-358 | The collected answers are the list's messages at exactly the increasing positions, before the next user message, that hold a finished bot message with the keyword. |
| ChatStore.RepliesComplete | src/stores/_chat.ts:343-358 | Every finished bot message with the keyword before the next user message is collected. |
| ChatStore.Responses | src/stores/_chat.ts:335-361 | An unknown id gives no answers. Otherwise the answers are the matching messages after the user message, in list order, up to the next user message. |
| ChatStore.RepliesBeforeNextUser | src/stores/_chat.ts:344-349 | Every collected answer lies before the next user message. |
| ChatStore.ExportSelected | src/stores/_chat.ts:363-376 | The packages are, in list order, exactly the selected user messages with an id, each with its collected answers. |
| ChatStore.ExportComplete | src/stores/_chat.ts:365-371 | Every selected user message with an id is exported. |
| ChatStore.NonBlank | src/stores/_chat.ts:414 | Every result is a request of the list with a non-blank keyword, and every such request is kept. |
| ChatStore.NonBlankAppend | src/stores/_chat.ts:414 | Filtering a concatenation filters each part and concatenates the results, so the filter keeps the list's order. |
| ChatStore.NonBlankSnoc | src/stores/_chat.ts:414 | The empty list filters to empty. Appending a request appends it to the result exactly when its keyword is not blank. |
| ChatStore.ApplyPatch | src/stores/_chat.ts:399-406 | Each property given by the update replaces the request's own; the rest are kept. |
| ChatStore.ChatStore.constructor | src/stores/_chat.ts:20-46 | The introduction alone, no request in flight, nothing selected, an empty batch queue. |
| ChatStore.ChatStore.BeginGenerate | src/stores/_chat.ts:68-107 | A blank keyword changes nothing. Otherwise the request pair is appended, the input is cleared and the placeholder is registered. Nothing else changes. |
| ChatStore.ChatStore.Register | src/stores/_chat.ts:103-104 | The id enters the pending set. `Map.set` keeps an existing key in its place. |
| ChatStore.ChatStore.Tick | src/stores/_chat.ts:106-116 | Only the placeholder's progress changes, and only while the placeholder exists; no other field of the store can change. The progress uses the expected time fixed when the request started, not the current service. |
| ChatStore.ChatStore.CompleteGenerate | src/stores/_chat.ts:120-198 | The list becomes `Settle` of the old list. The request leaves both registries and the reference text is cleared. |
| ChatStore.ChatStore.SettleMessages | src/stores/_chat.ts:131-192 | The message list becomes `Settle` of the old one; nothing else changes. |
| ChatStore.ChatStore.PlaceReplies | src/stores/_chat.ts:134-160 | The placeholder is replaced by the replies, in order. |
| ChatStore.ChatStore.Regenerate | src/stores/_chat.ts:208-215 | A message with a keyword is sent again, with its own reference and service when it has them. The new list, input, registries and request are stated for each case; a blank keyword only sets the input, reference and service. Selection, batch queue and aborted set cannot change. |
| ChatStore.ChatStore.AddQuickMessage | src/stores/_chat.ts:222-225 | The suggestion becomes the keyword and is sent. The new list, input and registries are stated; a blank suggestion only sets the input. Reference, service, selection and batch queue cannot change. |
| ChatStore.ChatStore.DeleteMessage | src/stores/_chat.ts:227-231 | Removes one message at a valid index and never the introduction; only the list can change. |
| ChatStore.ChatStore.CancelCurrentRequest | src/stores/_chat.ts:233-250 | The newest request is aborted and leaves both registries, and its placeholder is removed. Input, reference, service, selection and batch queue cannot change. |
| ChatStore.ChatStore.DropNewest | src/stores/_chat.ts:235-239 | Deletes the newest registry entry and nothing else. |
| ChatStore.ChatStore.RemoveMessage | src/stores/_chat.ts:243-246 | Removes the first message with the id, if any. |
| ChatStore.ChatStore.ClearChat | src/stores/_chat.ts:252-267 | Every active request is aborted, both registries are emptied and only the introduction is left. The reference input, selection mode and batch statuses are untouched. |
| ChatStore.ChatStore.ToggleSelectionMode | src/stores/_chat.ts:288-293 | Leaving selection mode clears the selection; only the mode and the selection can change. |
| ChatStore.ChatStore.ToggleMessageSelection | src/stores/_chat.ts:295-321 | Only user-message ids toggle; only the selection can change. |
| ChatStore.ChatStore.SelectAllMessages | src/stores/_chat.ts:323-328 | Selects exactly the user-message ids, each once, in list order (what a `Set` built from them holds), so the selection equals the id list whenever those ids are distinct. Only the selection can change. |
| ChatStore.ChatStore.ClearSelection | src/stores/_chat.ts:330-333 | Empties the selection; only the selection can change. |
| ChatStore.ChatStore.CollectBotResponses | src/stores/_chat.ts:335-361 | The loop returns exactly `Responses` of the list, so its answers are complete and in list order. |
| ChatStore.ChatStore.AddBatchRequest | src/stores/_chat.ts:379-390 | A full queue of 20 is unchanged. Otherwise a blank pending request is added, so the queue never exceeds 20. Only the queue and the statuses can change. |
| ChatStore.ChatStore.RemoveBatchRequest | src/stores/_chat.ts:392-397 | `splice(index, 1)`, and the removed request's status goes with it. Only the queue and the statuses can change. |
| ChatStore.ChatStore.UpdateBatchRequest | src/stores/_chat.ts:399-406 | Merges the update at a valid index; any other index changes nothing. Only the queue can change. |
| ChatStore.ChatStore.ClearBatchRequests | src/stores/_chat.ts:408-411 | Empties the queue and the statuses. |
| ChatStore.BatchPairsAt | src/stores/_chat.ts:426-430 | The k-th started request's user message and placeholder sit at positions 2k and 2k + 1 of the appended messages. |
| ChatStore.PendingAllHas | src/stores/_chat.ts:101 | After the batch, an id is pending exactly when it was before or is one of the batch's placeholders. |
| ChatStore.ChatStore.StartBatched | src/stores/_chat.ts:426-430 | One batched request is put into the input and starts a generation under the current service. The user message and placeholder are appended, the placeholder is pending and registered with its controller, the keyword is cleared and the reference input holds the request's reference text. |
| ChatStore.ChatStore.StartNext | src/stores/_chat.ts:426-430 | One iteration of the `forEach`: the state for the first k requests becomes the state for k + 1. |
| ChatStore.ChatStore.StartAll | src/stores/_chat.ts:426-430 | After the `forEach`, one request has started per batch request, in order: the messages are the old ones followed by each request's pair, every placeholder is pending and registered with its controller, and the input holds the last request's reference text. |
| ChatStore.ChatStore.HandleBatchGenerate | src/stores/_chat.ts:413-434 | Without a non-blank keyword nothing changes. Otherwise the non-blank requests (`NonBlank`, whose order `NonBlankSnoc` fixes) start in that order, with the state `StartAll` states, and the queue and statuses are cleared. Service, selection and aborted set are untouched. |
| LegacyChatStore.Replies | src/stores/chat.ts:75-82 | One pushed slot per part, in order. |
| LegacyChatStore.Holes | src/stores/chat.ts:84-91 | `n` empty slots. |
| LegacyChatStore.Overwrite | src/stores/chat.ts:84-91 | Array assignment: the slot is overwritten, or the array grows with holes up to it. |
| LegacyChatStore.PlacedAtIndex | src/stores/chat.ts:67-82 | While the placeholder is still at the captured index, the answer removes it and appends its parts. |
| LegacyChatStore.StaleIndex | src/stores/chat.ts:52-82 | With two requests in flight, the second answer deletes the first answer and leaves its own placeholder showing `loading`. |
| LegacyChatStore.LegacyChatStore.constructor | src/stores/chat.ts:18-24 | The introduction alone. |
| LegacyChatStore.LegacyChatStore.BeginGenerate | src/stores/chat.ts:35-58 | A blank keyword changes nothing. Otherwise the pair is pushed and the placeholder's position is captured. |
| LegacyChatStore.LegacyChatStore.CompleteGenerate | src/stores/chat.ts:60-96 | The list becomes `Settle` of the old one; loading stops and the reference text is cleared. |
| LegacyChatStore.LegacyChatStore.PushReplies | src/stores/chat.ts:75-82 | The parts are pushed in order. |
| LegacyChatStore.LegacyChatStore.Regenerate | src/stores/chat.ts:106-111 | Sends the message's keyword again; the reference and service are not restored. For each case the new list, input, loading flag and reference field are stated; nothing else can change. |
| LegacyChatStore.LegacyChatStore.AddQuickMessage | src/stores/chat.ts:118-121 | The suggestion becomes the keyword and is sent. For each case the new list, input, loading flag and reference field are stated; nothing else can change. |
| LegacyChatStore.LegacyChatStore.DeleteMessage | src/stores/chat.ts:123-127 | Removes one slot and never the first; only the list can change. |
| LegacyChatStore.LegacyChatStore.ClearChat | src/stores/chat.ts:129-137 | Only the introduction is left; only the list can change. |
| Sorting.Sort | src/features/published/stores/publishedStore.ts:45-51 | The result is a permutation of the input. |
| Sorting.SortStable | src/features/published/stores/publishedStore.ts:45-51 | Under a strict weak order, two tied elements appear in the result in the same relative order as in the input, copies included: the sort is stable. |
| Sorting.SortMembers | src/features/published/stores/publishedStore.ts:45-51 | Sorting keeps exactly the given elements. |
| Sorting.SortSorted | src/features/published/stores/publishedStore.ts:45-51 | With a strict order the result is sorted. |
| Sorting.SortOfSorted | src/utils/_localStorage.ts:64 | An already sorted list is left as it is, so equal elements keep their order. |
| Common.FindIndex | src/features/published/hooks/usePublishedList.ts:35 | `findIndex` by a key: the first position whose key matches, and `None` exactly when no entry has it. The same search finds a keyword entry (src/utils/_localStorage.ts:50) and a draft (extension/service_worker.ts:201). |
| PublishedStore.Filtered | src/features/published/stores/publishedStore.ts:39-43 | Exactly the items that pass both filters. |
| PublishedStore.ByTitleIsStrict | src/features/published/stores/publishedStore.ts:46 | A strict title order gives a strict order on items. |
| PublishedStore.DisplayList | src/features/published/stores/publishedStore.ts:38-52 | The filtered items sorted by the chosen order. Its properties are stated by DisplayListShape. |
| PublishedStore.DisplayListShape | src/features/published/stores/publishedStore.ts:38-52 | The display list holds exactly the filtered items. Newest first never puts an older item first; by title it is sorted for a strict comparison. |
| PublishedStore.Group | src/features/published/stores/publishedStore.ts:57-64 | Every result is an item of the list with the blog id, and every such item is kept. |
| PublishedStore.GroupAppend | src/features/published/stores/publishedStore.ts:57-64 | Grouping a concatenation groups each part and concatenates the results, so the push loop keeps list order. |
| PublishedStore.GroupCons | src/features/published/stores/publishedStore.ts:57-64 | Putting an item in front puts it in front of the group exactly when it carries the blog id. |
| PublishedStore.BlogIdGroups | src/features/published/stores/publishedStore.ts:54-67 | One group per non-empty blog id, holding that id's items (`Group`, in list order by `GroupAppend`). |
| PublishedStore.GroupsPartition | src/features/published/stores/publishedStore.ts:57-64 | An item with a blog id is in its own group and in no other. |
| PublishedStore.PublishedStore.constructor | src/features/published/stores/publishedStore.ts:8-35 | Empty list, newest first, no filters, closed modals, no edit, nothing loading. |
| PublishedStore.PublishedStore.DisplayGroups | src/features/published/stores/publishedStore.ts:54-67 | The groups of the current display list. |
| PublishedStore.PublishedStore.LoadArticles | src/features/published/stores/publishedStore.ts:70-77 | The stored items replace the list, or the list stays when reading throws. Loading ends either way. |
| PublishedStore.PublishedStore.OpenDetailModal | src/features/published/stores/publishedStore.ts:79-82 | Opens the modal on the item. |
| PublishedStore.PublishedStore.CloseDetailModal | src/features/published/stores/publishedStore.ts:84-89 | Closes the modal and abandons both edits. |
| PublishedStore.PublishedStore.OpenMarkdownModal | src/features/published/stores/publishedStore.ts:91-94 | Opens the modal with the content. |
| PublishedStore.PublishedStore.CloseMarkdownModal | src/features/published/stores/publishedStore.ts:96-99 | Closes and empties the modal. |
| PublishedStore.PublishedStore.StartEditMemo | src/features/published/stores/publishedStore.ts:101-104 | Starts editing the memo; the blog-id edit is untouched. |
| PublishedStore.PublishedStore.CancelEditMemo | src/features/published/stores/publishedStore.ts:106-109 | Abandons only the memo edit. |
| PublishedStore.PublishedStore.StartEditBlogId | src/features/published/stores/publishedStore.ts:111-114 | Starts editing the blog id; the memo edit is untouched. |
| PublishedStore.PublishedStore.CancelEditBlogId | src/features/published/stores/publishedStore.ts:116-119 | Abandons only the blog-id edit. |
| PublishedList.GetItemGroupInfo | src/features/published/hooks/usePublishedList.ts:24-41 | Information exists exactly for an item whose group has more than one member. The position is at most the group size, and latest means position 1. |
| PublishedList.GroupInfoPosition | src/features/published/hooks/usePublishedList.ts:30-40 | The position is the first place, newest first, holding the item's id, or 0 when the id is absent. The latest item carries its group's newest time. |
| PublishedList.PositionsDistinct | src/features/published/hooks/usePublishedList.ts:30-40 | Different ids in one group get different positions. |
| PublishedList.HandleUseTemplate | src/features/published/hooks/usePublishedList.ts:49-57 | The chat keyword becomes the item's keyword. A non-empty reference is copied and its input shown. |
| PublishedList.HandleDelete | src/features/published/hooks/usePublishedList.ts:60-65 | The list is reloaded only after confirmation. |
| SearchStore.Request | src/entities/search/stores/searchStore.ts:15-24 | No request for a blank query. Otherwise the trimmed, non-empty query, with an empty category dropped. |
| SearchStore.RequestPresent | src/entities/search/stores/searchStore.ts:15-24 | There is a request exactly when the query is not blank, and its query is the typed one minus surrounding white space. |
| SearchStore.CeilDiv | src/entities/search/stores/searchStore.ts:28 | The least page count that covers all hits. |
| SearchStore.Pages | src/entities/search/stores/searchStore.ts:26-29 | 0 pages without a result. The count is not finite for page size 0. Otherwise it is the least count covering all hits, and 0 exactly when there are none. |
| SearchStore.SearchStore.constructor | src/entities/search/stores/searchStore.ts:8-13 | Empty query and category, page 1, size 20, no result. |
| SearchStore.SearchStore.UpdateQuery | src/entities/search/stores/searchStore.ts:31-33 | Sets the query. |
| SearchStore.SearchStore.UpdateCategory | src/entities/search/stores/searchStore.ts:35-37 | Sets the category. |
| SearchStore.SearchStore.UpdatePage | src/entities/search/stores/searchStore.ts:39-41 | Sets the page. |
| SearchStore.SearchStore.SetSearchResult | src/entities/search/stores/searchStore.ts:43-45 | Sets the result. |
| SearchStore.SearchStore.ResetPage | src/entities/search/stores/searchStore.ts:47-49 | Back to page 1. |
| SearchStore.SearchStore.ClearSearch | src/entities/search/stores/searchStore.ts:51-56 | Query, category, page and result are reset, leaving no request and no page. The page size is kept. |
| SearchActions.AcceptedPages | src/entities/search/hooks/useSearchActions.ts:42 | A page is accepted exactly when it lies between 1 and the last page. Without hits none is. |
| SearchActions.SearchData | src/entities/search/hooks/useSearchActions.ts:31 | Fetched data wins over the stored result. |
| SearchActions.OnData | src/entities/search/hooks/useSearchActions.ts:25-29 | Only data that arrived is stored. |
| SearchActions.ShownAfterStore | src/entities/search/hooks/useSearchActions.ts:25-31 | Storing fetched data does not change what is shown. |
| SearchActions.ExecuteSearch | src/entities/search/hooks/useSearchActions.ts:33-38 | Without a request nothing changes. Otherwise the page returns to 1 and the request is sent for page 1. |
| SearchActions.ChangePage | src/entities/search/hooks/useSearchActions.ts:40-44 | An accepted page becomes current; any other is ignored. |
| ChatActions.TruncateKeyword | src/hooks/useChatActions.ts:27-29 | A keyword over 30 characters keeps its first 30 and gains `...`. |
| ChatActions.CopyNoticeFor | src/hooks/useChatActions.ts:22-37 | A failure exactly when the copy failed. The keyword notice appears exactly for a message with a keyword; it is at most 33 characters and names the user's keyword or the answer. |
| ChatActions.DownloadKeyword | src/hooks/useChatActions.ts:41-44 | A keyword over 50 characters is replaced by the keyword extracted from it. |
| ChatActions.DownloadFileName | src/hooks/useChatActions.ts:41-48 | The download's name. Its properties are stated by DownloadFileNameSafe and DownloadNamesDiffer. |
| ChatActions.HandleDownloadClick | src/hooks/useChatActions.ts:39-55 | Saves the answer's content under a `.txt` name. |
| ChatActions.DownloadFileNameSafe | src/hooks/useChatActions.ts:41-48 | The name has no forbidden character and no leading white space. It ends with a dash and the count of non-white-space characters. |
| ChatActions.DownloadNamesDiffer | src/hooks/useChatActions.ts:46-48 | Answers that share a keyword but differ in length get different names. |
| ChatActions.Saved | src/hooks/useChatActions.ts:74-77 | One download per file. SavedAt states each one. |
| ChatActions.SavedAt | src/hooks/useChatActions.ts:74-77 | The i-th download is the i-th file under its sanitized name. |
| ChatActions.DownloadMultipleFiles | src/hooks/useChatActions.ts:70-82 | No files means nothing happens. Otherwise every file is saved in order and the notice counts them. |
| ChatActions.MultipleNamesSafe | src/hooks/useChatActions.ts:74-77 | Every saved name is clean and non-empty, with the `.txt` extension. |
| DownloadZip.WithSuffix | src/utils/_downloadZip.ts:17 | The name ends with the suffix and starts with the given name. |
| DownloadZip.WithSuffixIdempotent | src/utils/_downloadZip.ts:17 | Normalizing twice equals normalizing once. A name is kept exactly when it already has the suffix. |
| DownloadZip.Put | src/utils/_downloadZip.ts:18 | A new name goes last; an existing one keeps its place. |
| DownloadZip.AddEntries | src/utils/_downloadZip.ts:16-19 | The loop builds exactly `Zip` of the files. |
| DownloadZip.DownloadZip | src/utils/_downloadZip.ts:13-26 | The archive entries, and the `.zip` name it is saved under. |
| DownloadZip.ZipUnique | src/utils/_downloadZip.ts:16-19 | No two entries share a name. |
| DownloadZip.ZipCovers | src/utils/_downloadZip.ts:16-19 | Every file has an entry under its normalized name. |
| DownloadZip.ZipFromLast | src/utils/_downloadZip.ts:16-19 | Every entry is the last file added under its name. |
| DownloadZip.ZipEntriesNamed | src/utils/_downloadZip.ts:16-19 | Every entry name ends in `.txt`, and its content is that of the last file with the name. |
| DownloadZip.ZipDistinct | src/utils/_downloadZip.ts:16-19 | With distinct normalized names, the archive has one entry per file, in order. |
| SanitizeFileName.RemoveInvalidMembers | src/utils/_sanitizeFileName.ts:1 | Exactly the valid characters remain. |
| SanitizeFileName.CollapseSpaceShape | src/utils/_sanitizeFileName.ts:12 | Only single plain spaces remain. Leading white space is preserved, and no other character is invented. |
| SanitizeFileName.StripTrailingDots | src/utils/_sanitizeFileName.ts:14 | Exactly the trailing dots go. |
| SanitizeFileName.Sanitize | src/utils/_sanitizeFileName.ts:3-17 | The result is never empty. |
| SanitizeFileName.CleanedClean | src/utils/_sanitizeFileName.ts:10-14 | The cleaned text is clean. It does not start with white space and does not end with a dot. |
| SanitizeFileName.SanitizeClean | src/utils/_sanitizeFileName.ts:3-17 | The result is non-empty and has no forbidden or control character. Its spaces are single and plain, it does not start with white space, and it does not end with a dot. |
| SanitizeFileName.BlankGivesFallback | src/utils/_sanitizeFileName.ts:4-8 | Blank input gives `result`. |
| SanitizeFileName.SpaceBeforeDots | src/utils/_sanitizeFileName.ts:13-14 | `a .` becomes `a `, so a result can end with a space, and sanitizing it again changes it. |
| SanitizeFileName.ControlCharactersDeleted | src/utils/_sanitizeFileName.ts:11-12 | A tab or line feed is deleted rather than turned into a space. |
| ExtractKeyword.CaptureAt | src/utils/_extractKeyword.ts:12 | A capture is non-empty and lies on one line. |
| ExtractKeyword.FirstKeywordMatch | src/utils/_extractKeyword.ts:12 | The leftmost position where the keyword pattern matches. |
| ExtractKeyword.FirstLabel | src/utils/_extractKeyword.ts:18 | A position it finds holds a shop-detail label match. |
| ExtractKeyword.FirstLabelIsFirst | src/utils/_extractKeyword.ts:18 | No label match lies before the one found, and none lies anywhere after the start when none is found. This is the leftmost-match rule of `split`. |
| ExtractKeyword.CutLabels | src/utils/_extractKeyword.ts:18 | The text before the first label, which holds no label. |
| ExtractKeyword.StripTitle | src/utils/_extractKeyword.ts:29 | A suffix of the line. |
| ExtractKeyword.Shorten | src/utils/_extractKeyword.ts:15-23 | The result is trimmed. |
| ExtractKeyword.ShortenShape | src/utils/_extractKeyword.ts:18-22 | No label, no new character, and a `(` only at the start. |
| ExtractKeyword.ExtractKeywordDisplay | src/utils/_extractKeyword.ts:8-38 | The result is trimmed. |
| ExtractKeyword.ResultShape | src/utils/_extractKeyword.ts:8-38 | Empty input gives the empty result. The result never holds a line feed or a label, and holds a `(` only at its start. |
| ExtractKeyword.FirstLineBranch | src/utils/_extractKeyword.ts:26-38 | Without a keyword match anywhere, the result is the shortened first line with its title label removed, and every character of it comes from the first line. |
| ExtractKeyword.KeywordBranch | src/utils/_extractKeyword.ts:12-23 | The leftmost keyword match decides the result. |
| ExtractKeyword.BlankCapture | src/utils/_extractKeyword.ts:12 | After a label whose colon is followed only by white space, the capture is white space alone. |
| ExtractKeyword.BlankAfterKeyword | src/utils/_extractKeyword.ts:12-23 | Such a label gives the empty keyword; the first line is never tried. |
| MarkdownRenderer.NextTerminator | src/utils/markdown/renderer.ts:11-13 | The end of the current line: the first line terminator, or the end of the text. |
| MarkdownRenderer.MapLinesFuse | src/utils/markdown/renderer.ts:11-13 | Two line-by-line passes equal one, when the first keeps each line a single line. |
| MarkdownRenderer.BreakLines | src/utils/markdown/renderer.ts:29 | No line feed survives. |
| MarkdownRenderer.TagsAreLines | src/utils/markdown/renderer.ts:11-13 | The heading tags hold no line terminator. |
| MarkdownRenderer.HeadingRulesKeepLines | src/utils/markdown/renderer.ts:11-12 | Each heading rule keeps a line a single line. |
| MarkdownRenderer.HeadingPasses | src/utils/markdown/renderer.ts:11-13 | The three heading passes act as one decision per line: the most `#` marks win. |
| MarkdownRenderer.RenderMarkdown | src/utils/markdown/renderer.ts:6-30 | The heading passes, the inline rules, the list rule and the line breaks, in the source's order. Its properties are stated by HeadingPasses and RenderShape. |
| MarkdownRenderer.RenderShape | src/utils/markdown/renderer.ts:6-30 | Empty content renders to nothing, and no rendering holds a line feed. |
| MarkdownRenderer.StripHeadingsFrom | src/utils/markdown/renderer.ts:50 | Stripping heading marks never lengthens the text. |
| MarkdownRenderer.ExtractPlainText | src/utils/markdown/renderer.ts:48-57 | The plain text is trimmed. |
| MarkdownRenderer.NoHeadingKeeps | src/utils/markdown/renderer.ts:50 | Text without heading marks at line starts is kept as it is. |
| MarkdownRenderer.HeadingLineStripped | src/utils/markdown/renderer.ts:50 | A heading line loses its marks and the white space after them, and nothing else. |
| MarkdownRenderer.Prefix | src/utils/markdown/renderer.ts:66 | `substring(0, n)` clamps a negative end to 0. |
| MarkdownRenderer.GeneratePreviewText | src/utils/markdown/renderer.ts:62-67 | The plain text, cut with `...` when over the limit. Its properties are stated by PreviewShape. |
| MarkdownRenderer.PreviewShape | src/utils/markdown/renderer.ts:62-67 | A plain text that fits is the preview. A longer one is cut to the limit and followed by `...`. The preview never exceeds limit + 3 and starts with the plain text. |
| MessageToPublished.ResultSample | src/utils/_messageToPublished.ts:15 | Up to 100 characters are kept as they are. Longer content keeps its first 100 and gains `...`. |
| MessageToPublished.ConvertMessage | src/utils/_messageToPublished.ts:4-30 | One message as a published item. Its properties are stated by ConvertMessageShape. |
| MessageToPublished.ConvertPair | src/utils/_messageToPublished.ts:32-61 | A user message and its answer as a published item. Its properties are stated by ConvertPairShape. |
| MessageToPublished.ConvertMessageShape | src/utils/_messageToPublished.ts:4-30 | The item is published, active and hidden. It takes the message's id or a generated one, and the keyword and title or their defaults. Sample and bot fields appear only for a bot answer, the user id only for a user message. |
| MessageToPublished.ConvertPairShape | src/utils/_messageToPublished.ts:32-61 | Id, keyword, title, reference and times come from the user message, and sample and bot fields from the answer. The service is the user message's when it is not empty, and the answer's otherwise. Without an answer the pair is the user message converted alone, except that an empty service is dropped. |
| LocalStorage.GetStoredValue | src/utils/_localStorage.ts:8-15 | The parsed value, or the default for a missing or empty key or a parse failure. |
| LocalStorage.GetSelectedService | src/utils/_localStorage.ts:33-34 | `gpt-5-v2` when nothing is stored. |
| LocalStorage.Prepend | src/utils/_localStorage.ts:107-110 | The new entry first, then as many old entries, in order, as fit. |
| LocalStorage.Bumped | src/utils/_localStorage.ts:50-62 | The known keyword counts one more use and nothing else changes. Otherwise a new entry with one use is pushed. |
| LocalStorage.AddKeyword | src/utils/_localStorage.ts:48-68 | The list `addKeywordToFrequent` writes. Its properties are stated by AddKeywordValid, AddKeywordKeepsAll and NewKeywordDropped. |
| LocalStorage.AddKeywordValid | src/utils/_localStorage.ts:48-68 | The written list always has at most 10 entries, by decreasing count, each used at least once. |
| LocalStorage.BumpedUsed | src/utils/_localStorage.ts:50-62 | Every entry has been used at least once. |
| LocalStorage.SortedUsed | src/utils/_localStorage.ts:64 | Sorting keeps that. |
| LocalStorage.TakeValid | src/utils/_localStorage.ts:65 | The cut to 10 keeps the list valid. |
| LocalStorage.AddKeywordKeepsAll | src/utils/_localStorage.ts:48-68 | With a known keyword or room left, no entry is lost. |
| LocalStorage.NewKeywordDropped | src/utils/_localStorage.ts:48-68 | Once 10 keywords are stored, a new keyword is never recorded. |
| LocalStorage.NewFavorite | src/utils/_localStorage.ts:98-105 | The saved entry's id is the time, and its title is the given one or the keyword. |
| LocalStorage.NewPublished | src/utils/_localStorage.ts:128-142 | Always published, carrying the chat data given. |
| LocalStorage.UpdateMemo | src/utils/_localStorage.ts:150-158 | Only the first entry with the id gets the memo. An unknown id writes nothing. |
| LocalStorage.UpdateExposure | src/utils/_localStorage.ts:161-172 | Only the first entry with the id changes. Its rank changes only when one is given, and an unknown id writes nothing. |
| LocalStorage.RemoveItem | src/utils/_localStorage.ts:174-178 | Exactly the entries without the id remain. |
| LocalStorage.RemoveItemAppend | src/utils/_localStorage.ts:176 | Removal keeps the order of the others. |
| LocalStorage.AddHistory | src/utils/_localStorage.ts:192-217 | A duplicate writes nothing. Otherwise the new entry comes first, followed by at most 14 old entries in order: the length is the old length plus one, capped at 15. The new entry's id is the time as text, its timestamp is the time, and its service defaults to `gpt-5-v2`. |
| LocalStorage.HistoryWithoutServiceRepeats | src/utils/_localStorage.ts:196-210 | Without a service argument the same search is recorded again on every call. |
| LocalStorage.HistoryWithServiceOnce | src/utils/_localStorage.ts:196-202 | With a service, a search just recorded is a duplicate. |
| LocalStorage.LocalStorage.constructor | src/utils/_localStorage.ts:8-15 | Every key starts missing. |
| LocalStorage.LocalStorage.AddKeywordToFrequent | src/utils/_localStorage.ts:48-68 | Writes `AddKeyword` of the list as read; the other keys are untouched. |
| LocalStorage.LocalStorage.AddFavoriteSearch | src/utils/_localStorage.ts:96-112 | The new entry first, at most 20 kept. |
| LocalStorage.LocalStorage.AddPublishedSearch | src/utils/_localStorage.ts:115-147 | The new published entry first, at most 20 kept. |
| LocalStorage.LocalStorage.UpdatePublishedMemo | src/utils/_localStorage.ts:150-158 | Written only when the id is found. |
| LocalStorage.LocalStorage.UpdatePublishedExposure | src/utils/_localStorage.ts:161-172 | Written only when the id is found. |
| LocalStorage.LocalStorage.RemoveFavoriteSearch | src/utils/_localStorage.ts:174-178 | Always written, without the id's entries. |
| LocalStorage.LocalStorage.AddSearchHistory | src/utils/_localStorage.ts:192-217 | A duplicate writes nothing; otherwise the stored history becomes `AddHistory` of the history read. |
| ServiceWorker.StatusName | extension/service_worker.ts:181-185 | Every status has a non-empty log name. |
| ServiceWorker.WithLog | extension/service_worker.ts:43-54 | The entry goes last, and only the newest 100 are kept. |
| ServiceWorker.FirstLineIsPrefix | extension/service_worker.ts:108-109 | The title is the text before the first line break. |
| ServiceWorker.SettledDraft | extension/service_worker.ts:105-157 | The draft is completed exactly when the request succeeded; then its title is the first line or the keyword. Otherwise it is an error with the message. |
| ServiceWorker.SettledImage | extension/service_worker.ts:239-260 | Images make it completed. An HTTP error or a throw makes it an error with its message. |
| ServiceWorker.ReplaceById | extension/service_worker.ts:121-123 | Drafts with the id are replaced and the others kept. |
| ServiceWorker.RemoveById | extension/service_worker.ts:190-197 | Exactly the drafts without the id remain. |
| ServiceWorker.SettleReplacesOnlyItself | extension/service_worker.ts:105-124 | A settling draft replaces itself and nothing else, and keeps its place. |
| ServiceWorker.ServiceWorker.constructor | extension/service_worker.ts:31-37 | Empty queue and log, logged out. |
| ServiceWorker.ServiceWorker.AddLog | extension/service_worker.ts:43-54 | The log becomes `WithLog` of the old one. |
| ServiceWorker.ServiceWorker.BeginDraft | extension/service_worker.ts:56-78 | The draft is queued last as generating, and the start is logged. |
| ServiceWorker.ServiceWorker.CompleteDraft | extension/service_worker.ts:99-157 | The queued draft becomes the settled one, and the outcome is logged. |
| ServiceWorker.ServiceWorker.UpdateDraftStatus | extension/service_worker.ts:161-188 | An unknown id changes nothing. Otherwise the first draft gets the status in place and the change is logged. |
| ServiceWorker.ServiceWorker.DeleteDraft | extension/service_worker.ts:190-197 | Every draft with the id goes. |
| ServiceWorker.ServiceWorker.BeginImage | extension/service_worker.ts:199-211 | An unknown id changes nothing. Otherwise the draft is marked as generating its image. |
| ServiceWorker.ServiceWorker.CompleteImage | extension/service_worker.ts:239-260 | Drafts with the id become the settled one. |
| ServiceWorker.ServiceWorker.ClearAllDrafts | extension/service_worker.ts:265-267 | Empties the queue. |
| ServiceWorker.ServiceWorker.HandleMessage | extension/service_worker.ts:342-419 | Each action gets its reply and state change. GENERATE_DRAFT logs its start and its outcome; DELETE_DRAFT, GENERATE_IMAGE and CLEAR_ALL_DRAFTS leave the event log alone; no action touches the log-in fields. `Draft not found` comes exactly for an unknown id, an unknown action is refused, and a storage failure changes nothing. |
| BotLog.Entry | src/features/bot/hooks/useBotLog.ts:14-20 | The entry carries the line and its stamp. |
| BotLog.Entries | src/features/bot/hooks/useBotLog.ts:13-28 | One entry per line, in order. |
| BotLog.TakeLastTwice | src/features/bot/hooks/useBotLog.ts:21-22 | Capping after every append equals capping once. |
| BotLog.StylesDistinguishTypes | src/features/bot/hooks/useBotLog.ts:41-58 | Every type has a background class, a text class and an icon, and no two types share any of them. |
| BotStore.Appended | src/features/bot/hooks/useBotLog.ts:21-22 | The newest 100 of all entries appended. |
| BotStore.LoginLines | src/features/bot/hooks/useBotLogin.ts:54-80 | At most two entries, none for a timeout. They are errors exactly when the log-in did not succeed. |
| BotStore.UploadLines | src/features/bot/hooks/useFolderUpload.ts:150-205 | The last entry is an error exactly when the upload did not succeed. |
| BotStore.ItemLines | src/features/bot/hooks/useFolderUpload.ts:195-197 | One entry per uploaded item, in order. |
| BotStore.DroppedDirectories | src/features/bot/hooks/useFolderUpload.ts:33-47 | The result holds only directory entries. An entry is in it exactly when it is a directory entry of a dropped file. |
| BotStore.DroppedDirectoriesAppend | src/features/bot/hooks/useFolderUpload.ts:33-47 | Scanning a concatenation of dropped items concatenates the directories found, so drop order is kept. |
| BotStore.KeptFolders | src/features/bot/hooks/useFolderUpload.ts:51-54 | Only folders with a manuscript or an image are kept. |
| BotStore.KeptFoldersAppend | src/features/bot/hooks/useFolderUpload.ts:51-54 | Processing a concatenation of directories concatenates the kept folders, in directory order. |
| BotStore.KeptFoldersComplete | src/features/bot/hooks/useFolderUpload.ts:51-54 | Every directory whose folder has a manuscript or an image yields a kept folder. |
| BotStore.KeptFoldersFrom | src/features/bot/hooks/useFolderUpload.ts:51-54 | Every kept folder is read from one of the dropped directories. |
| BotStore.AppendedStep | src/features/bot/hooks/useBotLog.ts:21-22 | One more entry extends the appended entries by one. |
| BotStore.BotStore.AddLog | src/features/bot/hooks/useBotLog.ts:13-28 | The entry goes last, and only the newest 100 are kept. |
| BotStore.BotStore.AddLogs | src/features/bot/hooks/useBotLog.ts:13-28 | One append per line, in order. |
| BotStore.BotStore.ClearLogs | src/features/bot/hooks/useBotLog.ts:30-32 | Empties the log. |
| BotStore.BotStore.BeginLogin | src/features/bot/hooks/useBotLogin.ts:21-38 | A running log-in or log-out blocks. Without a complete account only an error is logged. Otherwise the log-in starts. |
| BotStore.BotStore.CompleteLogin | src/features/bot/hooks/useBotLogin.ts:54-83 | Success stores the session and logs in. A refusal or an error keeps the session and marks an error. Loading ends either way. |
| BotStore.BotStore.BeginLogout | src/features/bot/hooks/useBotLogin.ts:86-95 | Guarded like log-in. The API is called only with a session. |
| BotStore.BotStore.CompleteLogout | src/features/bot/hooks/useBotLogin.ts:96-111 | The local session is always dropped, and an API error is only a warning. |
| BotStore.BotStore.SetDragOver | src/features/bot/hooks/useFolderUpload.ts:16-23 | Sets the drag flag. |
| BotStore.BotStore.HandleDrop | src/features/bot/hooks/useFolderUpload.ts:25-55 | The kept folders of the dropped directories are appended, in drop order by `DroppedDirectoriesAppend` and `KeptFoldersAppend`. |
| BotStore.BotStore.AddKept | src/features/bot/hooks/useFolderUpload.ts:51-54 | The loop appends exactly the kept folders. |
| BotStore.BotStore.RemoveFolder | src/features/bot/hooks/useFolderUpload.ts:124-129 | `splice(index, 1)`, and the removed name is logged. |
| BotStore.BotStore.ClearFolderList | src/features/bot/hooks/useFolderUpload.ts:131-134 | Empties the list and logs it. |
| BotStore.BotStore.BeginUpload | src/features/bot/hooks/useFolderUpload.ts:136-152 | With no folder only an error is logged. Otherwise the upload starts. |
| BotStore.BotStore.CompleteUpload | src/features/bot/hooks/useFolderUpload.ts:152-208 | Success stores the batch id and items and empties the list. A failure keeps the list. The flag drops either way. |
| BotStore.BotStore.StoreUpload | src/features/bot/hooks/useFolderUpload.ts:189-201 | After a successful reply the batch id is stored, the items too when given, and the folder list is emptied. Otherwise all three stay as they were. |
| FolderUpload.LowerAscii | src/features/bot/hooks/useFolderUpload.ts:84-89 | The case-insensitive comparison keeps the length, leaves no ASCII capital, and changes exactly the ASCII capitals. |
| FolderUpload.Absorb | src/features/bot/hooks/useFolderUpload.ts:80-89 | A `.txt` file becomes the manuscript and an image is appended; any other file changes nothing. |
| FolderUpload.Images | src/features/bot/hooks/useFolderUpload.ts:84-89 | Exactly the image files that are not manuscripts. |
| FolderUpload.LastManuscript | src/features/bot/hooks/useFolderUpload.ts:82-83 | The last `.txt` file, and `None` exactly when there is none. |
| FolderUpload.AbsorbAllCollects | src/features/bot/hooks/useFolderUpload.ts:74-103 | Walking the files appends all images and makes the last `.txt` file the manuscript. |
| FolderUpload.AbsorbAllAppend | src/features/bot/hooks/useFolderUpload.ts:90-101 | Walking two runs of files equals walking their concatenation. |
| FolderUpload.ReadFolderKept | src/features/bot/hooks/useFolderUpload.ts:112-121 | A folder is kept exactly when a file at any depth is a manuscript or an image. |
| FolderUpload.FolderBuilder.constructor | src/features/bot/hooks/useFolderUpload.ts:57-72 | An empty folder with the directory's name. |
| FolderUpload.FolderBuilder.ProcessEntry | src/features/bot/hooks/useFolderUpload.ts:74-103 | Walks the entry's files in depth-first order. |
| FolderUpload.FolderBuilder.ProcessEntries | src/features/bot/hooks/useFolderUpload.ts:90-101 | Walks a directory's entries in order. |
| FolderUpload.ProcessDirectory | src/features/bot/hooks/useFolderUpload.ts:57-122 | Returns the folder exactly when it is kept. |
| ChatMutations.MutationFn | src/hooks/useChatMutations.ts:14-18 | The message id is left out of the request and added to the response; errors pass through. |
| ChatMutations.RequestIgnoresMessageId | src/hooks/useChatMutations.ts:14-18 | The request does not depend on the message id. |
| ChatMutations.Mutation.constructor | src/hooks/useChatMutations.ts:12-22 | A new mutation is idle. |
| ChatMutations.ChatMutationRegistry.constructor | src/hooks/useChatMutations.ts:24-28 | An empty registry, which is not loading. |
| ChatMutations.ChatMutationRegistry.CreateMutation | src/hooks/useChatMutations.ts:30-34 | A fresh idle mutation replaces any entry under the id. Afterwards the registry is loading exactly when another id's mutation was pending, so creating never starts loading. |
| ChatMutations.ChatMutationRegistry.RemoveMutation | src/hooks/useChatMutations.ts:36-38 | Only that key goes. Afterwards the registry is loading exactly when another id's mutation was pending. |
| ChatMutations.ChatMutationRegistry.GetMutation | src/hooks/useChatMutations.ts:40-42 | The registered entry, or nothing. |
| ChatMutations.LoadingIsSomeValue | src/hooks/useChatMutations.ts:44-48 | The registry is loading exactly when some registered mutation is pending. |

## Left out

- Network, timers and clocks: `fetch`, axios, `setTimeout`/`setInterval`, `Date.now()` and `Math.random()`. Their results, ids and clock readings are parameters.
- `JSON.parse`, `TextDecoder` and `PART_SEPARATOR` are abstract functions. Strings are sequences of characters, so UTF-16 surrogate pairs and stream decoding are not modelled.
- ChatStore.Deserialize: the stored selection is an array of ids or missing. The source also leaves a truthy value that is not an array in place, unconverted (src/stores/_chat.ts:514-518), and `JSON.parse` throws on text that is not JSON. The model has neither case.
- Storage races: asynchronous operations of the extension worker are taken to run one at a time.
- StreamChat.StreamChat.StartStream: a call is modelled from start to end. A second `startStream` while one is reading aborts the first (src/hooks/useStreamChat.ts:36-38). The first call's AbortError handler (src/hooks/useStreamChat.ts:129-131) then sets `isStreaming` to false while the second stream is still running. This interleaving is not modelled.
- LocalStorage.LocalStorage: `setStoredValue` and `removeStoredValue` swallow a failing `setItem` or `removeItem` (src/utils/_localStorage.ts:17-31). The write methods' contracts state that the write happened, so a full or unavailable storage is not modelled.
- The Naver log-in and log-out of the extension worker (extension/service_worker.ts:273-340 and the NAVER_LOGIN and NAVER_LOGOUT cases) drive browser tabs and scripts. Only GET_LOGIN_STATUS is modelled.
- The inline markdown rules (bold, italic, code, links) and `localeCompare` are parameters. `validateMarkdown` is not modelled.
- `handleCopyKeyword` (clipboard), `downloadChatHistory` (clock-stamped file name) and the toast texts are not modelled, apart from the copy notice's kind and keyword.
- The blob, the anchor click and JSZip compression are not modelled. A download is the name and content it saves.
- ChatActions.DownloadText: src/hooks/useChatActions.ts:2 imports `downloadText` from src/utils/_downloadText.ts, which is not part of this model. The model assumes it saves the content under the given name followed by `.txt`, as the un-prefixed src/utils/downloadText.ts does; the `.txt` clauses of HandleDownloadClick, MultipleNamesSafe and TxtNameSafe rest on that assumption.
- DownloadZip.Zip: an entry name holding `/` makes JSZip create folders inside the archive. The model treats every name as one flat key.
- The searchStore persistence whitelist and the query-cache behaviour of useSearchActions are not modelled. Page numbers and maximum lengths are integers, not JavaScript numbers.
- `updateService`, `handleKeyPress`, `exportChat`, `openActionModal` and the computed counts of both chat stores are not modelled: they are a storage write, a keyboard event and JSON-with-date formatting.
- ChatStore.ChatStore.HandleBatchGenerate: the `addBatchHistory` write at src/stores/_chat.ts:423 is not modelled, because that helper is not in the modelled part of src/utils/_localStorage.ts.
- ChatStore.LoadingProgress: uses exact rational arithmetic, not floating point.
- BotStore.BotStore.HandleDrop: does not model the diagnostic log entries written while scanning dropped items and directories.
- The bot store's definition, its initial values and `formatTime` are not modelled. The account list in src/constants/_accounts.ts is not part of this model; only whether a complete account is chosen matters.
- The duplicate src/composables/useChatMutations.ts is identical in state behaviour to src/hooks/useChatMutations.ts and is modelled once. It imports a different `generateText` and also logs in `onError`; neither changes the mutation state.
- ServiceWorker.ServiceWorker.HandleMessage: for UPDATE_DRAFT_STATUS and GENERATE_IMAGE the contract states the reply and the event log; the queue change is the contract of UpdateDraftStatus, BeginImage and CompleteImage.
- PublishedStore.BlogIdGroups: the source's `Map` remembers the order in which blog ids were first inserted, and a Dafny map does not. The group contents and their order are modelled; the key order is not, since the only reader (src/features/published/hooks/usePublishedList.ts:27) looks up one key.
- Default arguments: `generatePreviewText`'s `maxLength = 100`, `openMarkdownModal`'s `content = ''` and the empty-text defaults of `startEditMemo` and `startEditBlogId` are not modelled. MarkdownRenderer.GeneratePreviewText and PublishedStore.PublishedStore.OpenMarkdownModal, StartEditMemo and StartEditBlogId take the value as an explicit argument.

## Findings

| source | as written | input that shows it | evidently intended | confidence | as-written member | corrected member |
|---|---|---|---|---|---|---|
| src/stores/chat.ts:52-82 | The placeholder's index is captured when the request starts. When the answer arrives, whatever is at that index is removed and the parts are appended at the end. | Two requests in flight with one-part answers, answered in order. The first answer shifts the list, so the second removes the first answer and leaves its own `loading` placeholder. | Each answer replaces its own placeholder, found by id, as src/stores/_chat.ts:131-160 does. | not executed | LegacyChatStore.StaleIndex | ChatStore.TwoInFlight |
