# NAIAD backend, modelled in Dafny

NAIAD is an assistant for a user who drives a Windows PC through a GRID3 communication
grid. The grid cannot call code: each cell touches a marker file in a trigger directory and
places text on the clipboard. A trigger processor polls that directory, runs the handler of
the first marker it finds and deletes the marker. The handlers keep a conversation session
(the current style of work, its history, a chat title and a model configuration), send
prompts to Anthropic through a request-shaping layer, keep a store of text artifacts and a
store of saved chats, read settings from a built-in table merged with the user's own, and
speak their answers through a text-to-speech provider.

This project models that backend and proves what its code promises:

- `trigger.dfy`: the fixed priority list of 24 marker names, the one-handler-per-cycle
  dispatch, the deletion of the dispatched marker even when its handler raises, and the
  `running` flag that `stop` clears.
- `appstate.dfy`, `app.dfy`, `resume.dfy`: the session of `NAIADApplication`, first as
  functions over a `Session` value and then as a class whose handlers are proved to compute
  those functions: mode switching, the clipboard prompt and its duplicate guards, the retry,
  the print and WhatsApp snapshots, saving, reading and deleting by number.
- `api.dfy`: the web interface's listings, page readers, reads, deletes and the resume
  flows over the same application.
- `components.dfy`, `provider.dfy`, `orchestrator.dfy`: the system prompt, the context
  window, the reply parser, the model-configuration fallback, the reply validator, the chat
  prompt, the style parameters and the session orchestrator.
- `artifacts.dfy`, `chats.dfy`, `filenames.dfy`, `ranking.dfy`: the two stores as classes
  over a directory of records with integer dates, with title derivation, filename
  sanitising, collision handling, newest-first listing and 1-based lookup.
- `settings.dfy`: the recursive configuration merge, dotted lookup and the built-in table.
- `playback.dfy`, `tts.dfy`, `local_tts.dfy`: the playback flags of the two speech
  providers, their temporary-file sweep and the local provider's bounded retry.
- `text.dfy`, `json.dfy`, `base.dfy`, `wrappers.dfy`: Python's string operations used by
  the code, JSON values, the shared types of the AI layer, and `Option`/`Result`.

External effects are parameters. The clipboard is a field of the application whose content
the caller sets. The Anthropic client is a function from request to reply, and JSON decoding
is a function too. The clock is an integer argument, and date formatting is a function from
integer to text. The speech the application produces is a log of calls. A handler that
raises is modelled as an error result.

## Model

| member | source | states |
|---|---|---|
| Artifacts.CandidateInjective | src/naiad/core/artifact_manager.py:105-109 | different counters give different alternative names, so the collision loop never tries a name twice |
| Artifacts.SafeNameShape | src/naiad/core/artifact_manager.py:91-99 | the name save_artifact starts from ends with ".txt" and holds none of the characters Windows forbids |
| Artifacts.SafeName | src/naiad/core/artifact_manager.py:91-99 | the name save_artifact starts from always ends with ".txt" |
| Artifacts.FreeName | src/naiad/core/artifact_manager.py:102-109 | the loop ends on the safe name when it is free, else on the first free base_k.txt, never on a taken name |
| Artifacts.TxtFiles | src/naiad/core/artifact_manager.py:129 | exactly the files whose names end with ".txt" |
| Artifacts.ListingSpec | src/naiad/core/artifact_manager.py:122-137 | the listing is a permutation of the .txt files, newest first |
| Artifacts.ArtifactByNumber | src/naiad/core/artifact_manager.py:179-199 | success exactly for 1 <= n <= the count, with the name and content of a stored .txt file; otherwise the error naming the count |
| Artifacts.NewestIsNumberOne | src/naiad/core/artifact_manager.py:179-199 | a file newer than all the others is artifact number 1 |
| Artifacts.ContentOf | src/naiad/core/artifact_manager.py:139-156 | none exactly when no file has the name; otherwise that file's content |
| Artifacts.ContentOfPresent | src/naiad/core/artifact_manager.py:139-156 | a stored file is read back with its own content |
| Artifacts.Without | src/naiad/core/artifact_manager.py:211-216 | removing a name keeps every other file and only those, and names stay distinct |
| Artifacts.WithoutNames | src/naiad/core/artifact_manager.py:211-216 | removing a file removes exactly its name |
| Artifacts.ListLines | src/naiad/core/artifact_manager.py:172-175 | one line per listed file, numbered from 1 in listing order |
| Artifacts.ListTextShape | src/naiad/core/artifact_manager.py:158-177 | the fixed sentence exactly when no .txt file exists, otherwise starts with the header |
| Artifacts.ArtifactManager.constructor | src/naiad/core/artifact_manager.py:8-19 | the manager holds the files already in the directory |
| Artifacts.ArtifactManager.SaveArtifact | src/naiad/core/artifact_manager.py:75-119 | a failing write changes nothing and raises the save error with its message; otherwise the content is added under the first free name and nothing is overwritten |
| Artifacts.ArtifactManager.GetArtifactsList | src/naiad/core/artifact_manager.py:122-137 | the files are collected and sorted newest first (Artifacts.ListingSpec) |
| Artifacts.ArtifactManager.GetArtifactContent | src/naiad/core/artifact_manager.py:139-156 | a missing file is the not-found error with its name; otherwise its content |
| Artifacts.ArtifactManager.GetArtifactByNumber | src/naiad/core/artifact_manager.py:179-199 | the result of ArtifactByNumber over the current files |
| Artifacts.ArtifactManager.FormatArtifactList | src/naiad/core/artifact_manager.py:158-177 | the loop builds exactly the spoken list (Artifacts.ListTextShape) |
| Artifacts.ArtifactManager.DeleteArtifact | src/naiad/core/artifact_manager.py:201-223 | true exactly when the file exists and the unlink works, and then only that file is gone; otherwise the directory is unchanged |
| Chats.HistoryToValue | src/naiad/core/chat_manager.py:177-182 | the stored history is a JSON list with one role/content dictionary per message, in order |
| Chats.ItemsRoundTrip | src/naiad/core/chat_manager.py:177-185 | the list items of a written history read back as the same messages |
| Chats.HistoryRoundTrip | src/naiad/core/chat_manager.py:177-185 | a history written to a chat file reads back as the same messages |
| Chats.SavedChatRoundTrip | src/naiad/core/chat_manager.py:45-64 | SavedChat.from_dict undoes SavedChat.to_dict |
| Chats.SavedRecordIsNoSavedChat | src/naiad/core/chat_manager.py:46-54 | the record save_chat writes has no description, so from_dict refuses it |
| Chats.FromDict | src/naiad/core/chat_manager.py:45-54 | from_dict succeeds exactly when every key is present, the style is a style value and the date converts; the history, title and description are kept whatever their type |
| Chats.StoredSpec | src/naiad/core/chat_manager.py:167-185 | writing a chat file leaves names distinct, replaces any file of that name rather than adding a second, and keeps every other file |
| Chats.ChatFileNameShape | src/naiad/core/chat_manager.py:155-164 | the chat file name ends with ".json" and holds none of the characters Windows forbids |
| Chats.ReadableChats | src/naiad/core/chat_manager.py:203-211 | exactly the chats read from some file of the directory |
| Chats.ChatsListingSpec | src/naiad/core/chat_manager.py:194-218 | the listing is a permutation of the readable chats, newest saved_at first; unreadable files are skipped |
| Chats.SavedChatIsListed | src/naiad/core/chat_manager.py:177-208 | the record save_chat writes is read back under its name with the style and date it was saved with |
| Chats.ReadEntry | src/naiad/core/chat_manager.py:203-211 | a file is listed exactly when it is a .json file holding a dictionary with a known style value and a convertible saved_at; the listed chat keeps its name, style, date and fields |
| Chats.SaveThenList | src/naiad/core/chat_manager.py:136-214 | after save_chat the new chat is listed with its style, its date and a history that decodes to the one saved |
| Chats.ChatByNumber | src/naiad/core/chat_manager.py:276-304 | an out-of-range number is the error naming the count; a found chat is a listed one with its style and stored history, and carries a title exactly when asked |
| Chats.Without | src/naiad/core/chat_manager.py:316-323 | removing a name keeps every other file and only those, and names stay distinct |
| Chats.ListedIsStored | src/naiad/core/chat_manager.py:342-348 | every listed chat is a file of the directory |
| Chats.WithoutListed | src/naiad/core/chat_manager.py:342-349 | removing a listed chat removes that one name and keeps every other file |
| Chats.WithoutNames | src/naiad/core/chat_manager.py:316-323 | removing a file removes exactly its name and keeps every other file |
| Chats.StyleName | src/naiad/core/chat_manager.py:257-268 | every style has a spoken name |
| Chats.StyleNameInjective | src/naiad/core/main.py:532-541 | no two styles share a spoken name |
| Chats.FilterStyle | src/naiad/core/chat_manager.py:250-252 | without a filter all chats; with one exactly the chats of that style |
| Chats.ListLines | src/naiad/core/chat_manager.py:266-271 | one line per chat, numbered from 1 in listing order |
| Chats.ListTextShape | src/naiad/core/chat_manager.py:240-273 | the fixed sentence exactly when no readable chat has the style asked for |
| Chats.ChatManager.constructor | src/naiad/core/chat_manager.py:67-72 | the manager holds the files already in the directory |
| Chats.ChatManager.SaveChat | src/naiad/core/chat_manager.py:136-192 | an empty chat or a failing write changes nothing and raises the save error; otherwise the record is written under the sanitised title, replacing any file of that name |
| Chats.ChatManager.GetChatsList | src/naiad/core/chat_manager.py:194-218 | the loop collects and sorts exactly the listing (Chats.ChatsListingSpec) |
| Chats.ChatManager.FormatChatsList | src/naiad/core/chat_manager.py:240-273 | the loop builds exactly the spoken list (Chats.ListTextShape) |
| Chats.ChatManager.GetChatByNumber | src/naiad/core/chat_manager.py:276-304 | the result of ChatByNumber over the current files |
| Chats.ChatManager.DeleteChat | src/naiad/core/chat_manager.py:306-327 | true exactly when the file exists and the unlink works, and then only that file is gone; otherwise nothing changes |
| Chats.ChatManager.DeleteChatByNumber | src/naiad/core/chat_manager.py:329-349 | an out-of-range number raises the count error and changes nothing; otherwise exactly the n-th listed chat is deleted, unless the unlink fails |
| AppState.ModeConfig | src/naiad/core/main.py:763-773 | the configuration installed for a style is never empty: the fallback replaces a missing or empty entry |
| AppState.ModeConfigFallback | src/naiad/core/main.py:763-773 | a usable entry of the models table is taken as it is; otherwise the fallback holds the default model with temperature 0.7 and 1000 tokens, and the provider accepts it |
| AppState.DefaultModeConfigs | src/naiad/core/main.py:171-182 | with the built-in configuration every style finds its own model entry, which is a well-formed model configuration |
| AppState.HandleModeSwitch | src/naiad/core/main.py:755-774 | switching to another style sets the style, empties the history, drops the title and installs that style's configuration; clipboard and speech are kept |
| AppState.HandleModeSameStyle | src/naiad/core/main.py:775-776 | asking for the current style changes nothing, so handle_mode is idempotent and always ends in the requested style |
| AppState.Answered | src/naiad/core/main.py:689-719 | a reply extends the history by the prompt and the reply; a failure leaves history and speech alone; style, title and configuration never change |
| AppState.ProcessClipboardIgnores | src/naiad/core/main.py:670-687 | an empty prompt, the last answer pasted back, or the previous non-numeric prompt repeated leaves the whole state unchanged |
| AppState.DigitRepeatIsSent | src/naiad/core/main.py:681-691 | a numeric prompt repeated is still sent to the provider |
| AppState.ProcessClipboardAppends | src/naiad/core/main.py:666-719 | an accepted prompt is sent with at most ten earlier messages and ends the request; the reply is appended, spoken and copied; a failure copies "Errore: " and its message |
| AppState.RetryAppends | src/naiad/core/main.py:721-751 | retryTranslation sends "RIPROVA" and records prompt and reply, or copies the error and keeps the history |
| AppState.ProcessClipboard | src/naiad/core/main.py:666-719 | process_clipboard keeps the style, title and configuration; a prompt the safety checks reject changes nothing; the history either stays or gains the prompt and an assistant reply |
| AppState.RetryTranslation | src/naiad/core/main.py:721-751 | retryTranslation keeps the style, title and configuration; the history either stays or gains "RIPROVA" and an assistant reply; a failing call copies "Errore: " and its message and says nothing |
| AppState.AnsweredExtends | src/naiad/core/main.py:689-719 | the old history stays a prefix and grows by at most two messages |
| AppState.ConversationOnlyAppends | src/naiad/core/main.py:666-751 | process_clipboard and retryTranslation only append to the history, at most one exchange |
| AppState.ChooseTitle | src/naiad/core/main.py:214-225 | a chosen title is never empty |
| AppState.ChooseTitleCases | src/naiad/core/main.py:377-385 | the clipboard is the title when it has two to five words, else the current non-empty title, else there is none, and none exactly in that last case |
| AppState.Printed | src/naiad/core/main.py:196-250 | print_session_content keeps the conversation and adds exactly one speech call |
| AppState.PrepareWhatsApp | src/naiad/core/main.py:494-530 | prepare_whatsapp_message keeps the conversation and adds exactly one speech call: the nothing-to-send message for an empty history, the error (also copied) for a failing call, or the introduction and the draft, which is copied unless empty |
| AppState.SnapshotHandlersKeepHistory | src/naiad/core/main.py:198-201 | with an empty history both handlers only say there is nothing to work with |
| AppState.PrintShowsContent | src/naiad/core/main.py:207-245 | the printed answer goes on the clipboard when not empty and is read out after the saved or not-saved message |
| AppState.ListArtifact | src/naiad/core/main.py:252-267 | listing keeps the conversation and the clipboard |
| AppState.ReadArtifact | src/naiad/core/main.py:269-300 | reading keeps the conversation and adds one or two speech calls |
| AppState.ReadArtifactNumber | src/naiad/core/main.py:281-295 | an out-of-range number is answered with the count; otherwise a stored .txt file is read out twice and its non-empty content copied |
| AppState.DeleteArtifact | src/naiad/core/main.py:335-364 | deleting keeps the conversation and the clipboard and says one thing |
| AppState.DeleteArtifactNumber | src/naiad/core/main.py:348-360 | a failing unlink removes nothing |
| AppState.DeleteArtifactRemovesListed | src/naiad/core/main.py:348-360 | number n removes exactly the n-th listed file and announces it; an out-of-range number removes nothing and reports the count |
| AppState.SaveCurrentChat | src/naiad/core/main.py:366-399 | saving keeps the conversation and the clipboard; an empty history or a failing write stores nothing |
| AppState.SavedSessionIsListed | src/naiad/core/main.py:387-395 | a saved session is listed afterwards with its style, its time and a history that decodes to the session's history, and names stay distinct |
| AppState.ListSavedChats | src/naiad/core/main.py:402-419 | listing keeps the conversation and the clipboard |
| AppState.LastAssistant | src/naiad/core/main.py:437-442 | none exactly when no message is the assistant's; otherwise the content of the last assistant message |
| AppState.LastReplyOfItems | src/naiad/core/main.py:437-442 | the scan finds nothing exactly when every item is a dictionary with a non-assistant role; a found reply is the content of an assistant item after which every item has another role; a failure comes from an item after which every item has another role and that lacks "role", is not a dictionary, or is an assistant item without "content" |
| AppState.LastReplyOf | src/naiad/core/main.py:437-442 | a stored history that is not a list never yields a reply: reversed() over a dictionary or string yields strings, which cannot be indexed by "role", and other values are not reversible |
| AppState.ScanStopsAtLastReply | src/naiad/core/main.py:437-442 | an assistant item with content followed only by items of other roles is found, whatever comes before it |
| AppState.ScanOfMessages | src/naiad/core/main.py:437-442 | over items that read back as messages the scan fails nowhere and finds the last assistant message's content |
| AppState.LastReplyOfDecoded | src/naiad/core/main.py:437-442 | on a stored history that reads back as messages, the scan agrees with AppState.LastAssistant |
| AppState.FindLastReply | src/naiad/core/main.py:437-442 | the backward loop returns what AppState.LastReplyOf states |
| AppState.ReadSavedSkipsEarlierItems | src/naiad/core/main.py:433-452 | a chat whose last assistant item has a non-empty reply is announced with it, even when earlier items are malformed |
| AppState.LastAssistantOfExchange | src/naiad/core/main.py:437-442 | after an exchange is recorded its reply is the last answer |
| AppState.ReadSavedChat | src/naiad/core/main.py:421-463 | reading keeps the conversation and the clipboard and says one thing: the request for a number, the lookup error, READ_CHAT_ERROR, the announcement of the chat with its last reply, or the no-reply message |
| AppState.ReadSavedChatNumber | src/naiad/core/main.py:433-463 | the same for a known number; the reply is looked for by the backward scan over the stored value, and a scan that raises gives READ_CHAT_ERROR |
| AppState.ReadSavedReportsLastReply | src/naiad/core/main.py:435-454 | a chat found by number is announced by name, style and last assistant reply |
| AppState.DeleteChat | src/naiad/core/main.py:465-492 | deleting keeps the conversation and the clipboard and says one thing; a failing unlink removes nothing |
| AppState.DeleteChatNumber | src/naiad/core/main.py:477-489 | an out-of-range number removes nothing and reports the count |
| AppState.DeleteChatRemovesListed | src/naiad/core/main.py:477-489 | number n removes exactly the n-th listed chat's file and keeps every other file |
| AppState.NonNumberOnlyPrompts | src/naiad/core/main.py:269-492 | a clipboard that is not a number makes every by-number handler only ask for a number |
| App.NAIADApplication.constructor | src/naiad/core/main.py:37-194 | a new application starts in translation mode with no history and no title, over the stores it is given, with the configuration of the translation entry or the fallback |
| App.NAIADApplication.GetClipboardContent | src/naiad/core/main.py:580-601 | the clipboard text with surrounding whitespace removed |
| App.NAIADApplication.SetClipboardContent | src/naiad/core/main.py:605-625 | empty text leaves the clipboard as it was; any other text replaces it; nothing else changes |
| App.NAIADApplication.SpeakText | src/naiad/utils/tts_provider.py:33-74 | one speech call with the text is added and nothing else changes |
| App.NAIADApplication.SpeechControl | src/naiad/core/trigger_processor.py:61-80 | one control call reaches the speech provider and nothing else changes |
| App.NAIADApplication.PasteFromOutside | src/naiad/core/main.py:580-603 | the communication grid writing the clipboard between cycles changes the clipboard and nothing else |
| App.NAIADApplication.HandleMode | src/naiad/core/main.py:755-776 | the new state is handle_mode's, whose effect AppState.HandleModeSwitch and AppState.HandleModeSameStyle describe |
| App.NAIADApplication.CleanHistory | src/naiad/core/trigger_processor.py:24-28 | the history becomes empty and everything else is kept |
| App.NAIADApplication.Record | src/naiad/core/main.py:693-719 | the reply is recorded, spoken and copied, or the error copied, as AppState.Answered states |
| App.NAIADApplication.ProcessClipboard | src/naiad/core/main.py:666-719 | the new state is process_clipboard's on the old one, with the guarantees of AppState.ProcessClipboardIgnores and AppState.ProcessClipboardAppends |
| App.NAIADApplication.RetryTranslation | src/naiad/core/main.py:721-751 | the new state is retryTranslation's on the old one (AppState.RetryAppends) |
| App.NAIADApplication.PrintSessionContent | src/naiad/core/main.py:196-250 | nothing is saved with an empty history, a failing provider or a failing write; otherwise the answer is saved under the first free name for the chosen title and appended to the artifact store |
| App.NAIADApplication.PrepareWhatsAppMessage | src/naiad/core/main.py:494-530 | the new state is prepare_whatsapp_message's on the provider's answer to the WhatsApp prompt |
| App.NAIADApplication.ListArtifact | src/naiad/core/main.py:252-267 | the artifact list is spoken over the current store |
| App.NAIADApplication.ReadArtifact | src/naiad/core/main.py:269-300 | the artifact named by the clipboard number is read as AppState.ReadArtifactNumber states |
| App.NAIADApplication.DeleteArtifact | src/naiad/core/main.py:335-364 | session and artifact store change together as AppState.DeleteArtifact states |
| App.NAIADApplication.SaveCurrentChat | src/naiad/core/main.py:366-399 | session and chat store change together as AppState.SaveCurrentChat states |
| App.NAIADApplication.ListSavedChats | src/naiad/core/main.py:402-419 | the unfiltered chat list is spoken over the current store |
| App.NAIADApplication.ReadSavedChat | src/naiad/core/main.py:421-463 | the chat named by the clipboard number is announced as AppState.ReadSavedChat states |
| App.NAIADApplication.DeleteChat | src/naiad/core/main.py:465-492 | session and chat store change together as AppState.DeleteChat states |
| App.NAIADApplication.DeleteChatNumber | src/naiad/core/main.py:477-489 | deleting a known number changes session and chat store as AppState.DeleteChatNumber states |
| UiApi.ArtifactItems | src/naiad/ui/api.py:89-106 | one item per listed artifact |
| UiApi.ChatItems | src/naiad/ui/api.py:258-276 | one item per listed chat |
| UiApi.ArtifactItemsAreRanks | src/naiad/ui/api.py:95-102 | item k carries number k+1 and the k-th listed name, and get_artifact_by_number with that number finds that very file |
| UiApi.ChatItemsAreRanks | src/naiad/ui/api.py:264-272 | item k carries number k+1, the k-th chat's name and date, and its style's value; a chat with a history is found again by that number |
| UiApi.StyleLabelAgrees | src/naiad/ui/api.py:288-307 | the page reader names each style as the application's style names do, and an unknown type by itself |
| UiApi.PageNumbersAreLocal | src/naiad/ui/api.py:124-129 | both page readers speak one line per item, numbered from 1 within the page |
| UiApi.ArtifactRead | src/naiad/ui/api.py:141-149 | success exactly for a number in range: then a stored .txt file's content is spoken and returned; otherwise the count error is returned and nothing is said |
| UiApi.ChatReadReturnsLastReply | src/naiad/ui/api.py:319-339 | for a stored history that reads back as messages: success exactly when the last assistant message is not empty: then it is spoken and returned; otherwise the fixed error and nothing said |
| UiApi.ChatRead | src/naiad/ui/api.py:319-339 | a success speaks exactly the content it returns; a failure says nothing; a lookup error or an exception of the backward scan is returned as the error |
| UiApi.ArtifactDeleted | src/naiad/ui/api.py:245-255 | an out-of-range number changes nothing and returns the count error; for one in range success is whether the unlink works, and a failing unlink changes nothing |
| UiApi.ArtifactDeletedRemovesListed | src/naiad/ui/api.py:245-255 | artifact n is removed, and only it, and its removal is announced |
| UiApi.ChatDeleted | src/naiad/ui/api.py:341-350 | as for artifacts, with the chat count |
| UiApi.ChatDeletedRemovesListed | src/naiad/ui/api.py:341-350 | the file of the n-th listed chat is removed and no other |
| UiApi.ResumePrompt | src/naiad/ui/api.py:164-169 | the request ends with the original text |
| UiApi.Continued | src/naiad/ui/api.py:171-187 | a reply records one exchange, is spoken and answers success; a failure changes nothing and returns the error |
| UiApi.ResumedArtifactContinues | src/naiad/ui/api.py:151-217 | the session switches to the target style with the file name as title; a reply appends the request, ending with the text, and the reply; a failure appends nothing but keeps the switch |
| UiApi.ResumedChatInstalls | src/naiad/ui/api.py:219-243 | for a stored history that reads back as messages: the stored style and history are installed; the stored title survives only when the style did not change; the resumed chat is announced with its last reply |
| UiApi.ResumeAfterSave | src/naiad/ui/api.py:219-243 | a chat saved and then resumed brings back exactly the saved history |
| UiApi.ResumedChat | src/naiad/ui/api.py:219-243 | a lookup error changes nothing and is returned; otherwise the stored style is installed, and the call succeeds exactly when the backward scan over the stored history raises nothing, saying one line on success and nothing on failure |
| UiApi.Api.constructor | src/naiad/ui/api.py:13-24 | the Api is bound to its application |
| UiApi.Api.ListArtifacts | src/naiad/ui/api.py:89-106 | the items of the current artifact store |
| UiApi.Api.ListChats | src/naiad/ui/api.py:258-276 | the items of the current chat store |
| UiApi.Api.ReadArtifactsPage | src/naiad/ui/api.py:108-138 | speech is stopped, then the page text is spoken, and the answer is success |
| UiApi.Api.ReadChatsPage | src/naiad/ui/api.py:278-317 | speech is stopped, then the page text is spoken, and the answer is success |
| UiApi.Api.ReadArtifact | src/naiad/ui/api.py:141-149 | the answer and the new state are those of ArtifactRead |
| UiApi.Api.ReadChat | src/naiad/ui/api.py:319-339 | the answer and the new state are those of the read_chat model (UiApi.ChatRead), the backward loop computing the scan |
| UiApi.Api.DeleteArtifact | src/naiad/ui/api.py:245-255 | answer, session and store change together as ArtifactDeleted states |
| UiApi.Api.DeleteChat | src/naiad/ui/api.py:341-350 | answer, session and store change together as ChatDeleted states |
| UiApi.Api.ResumeArtifact | src/naiad/ui/api.py:151-217 | the shared body of both resume_*_artifact calls, as ResumedArtifactContinues states |
| UiApi.Api.ResumeCreativeArtifact | src/naiad/ui/api.py:151-187 | resuming with the creative-writing target |
| UiApi.Api.ResumeArticleArtifact | src/naiad/ui/api.py:189-217 | resuming with the article-writing target |
| UiApi.Api.ResumeChat | src/naiad/ui/api.py:219-243 | the answer and the new state are those of resume_chat (UiApi.ResumedChat, UiApi.ResumedChatInstalls), the backward loop computing the scan |
| MainResume.NonNumberOnlyAsks | src/naiad/core/main.py:302-333 | a clipboard that is not a number makes the resume handlers only ask for one, without calling the Api |
| MainResume.NumberIsResumed | src/naiad/core/main.py:302-333 | the decimal form of a number, with any surrounding whitespace, resumes the artifact or the chat of that number |
| MainResume.ResumeCreativeArtifact | src/naiad/core/main.py:302-311 | the new state and the Api's answer are those of the clipboard-driven resume with the creative target |
| MainResume.ResumeArticleArtifact | src/naiad/core/main.py:313-322 | the same with the article target |
| MainResume.ResumeSavedChat | src/naiad/core/main.py:324-333 | the same for a saved chat |
| Trigger.PriorityListsEachOnce | src/naiad/core/trigger_processor.py:24-147 | the chain tests 24 markers, each exactly once and each under a file name of its own |
| Trigger.ModeStyle | src/naiad/core/trigger_processor.py:35-59 | exactly the five mode markers select a style |
| Trigger.FirstIn | src/naiad/core/trigger_processor.py:24-147 | none exactly when no marker of the order is present; otherwise a present marker with no present marker before it |
| Trigger.FirstPresentIsFirst | src/naiad/core/trigger_processor.py:24-147 | a cycle picks a marker exactly when one is present, and it picks the present marker that comes first in the chain |
| Trigger.HandleConversation | src/naiad/core/trigger_processor.py:24-34 | clean_history, process, retry and prepare_whatsapp touch neither store |
| Trigger.HandleControl | src/naiad/core/trigger_processor.py:35-80 | the mode and speech-control handlers touch neither store |
| Trigger.HandleArtifact | src/naiad/core/trigger_processor.py:88-117 | the artifact handlers leave the chat store alone |
| Trigger.HandleChat | src/naiad/core/trigger_processor.py:118-142 | the chat handlers leave the artifact store alone |
| Trigger.HandlersTouchTheirStore | src/naiad/core/trigger_processor.py:24-147 | only an artifact handler changes the artifact store, only a chat handler changes the chat store, and only print_artifact depends on the name it saved under |
| Trigger.CycleRunsFirstOnly | src/naiad/core/trigger_processor.py:19-153 | a cycle with no marker changes nothing; otherwise it applies the handler of exactly the first present marker, or nothing when the handler raised, and deletes that marker and no other unless the deletion raises, in which case every marker stays |
| Trigger.Cycle | src/naiad/core/trigger_processor.py:19-153 | a cycle with no marker changes nothing; otherwise exactly one present marker is deleted, unless its deletion raises and all markers stay; a raising handler leaves the application as it was |
| Trigger.StuckMarkerRunsAgain | src/naiad/core/trigger_processor.py:24-153 | a marker whose deletion raised is dispatched again by the next cycle |
| Trigger.CleanHistoryFirst | src/naiad/core/trigger_processor.py:24-28 | clean_history wins over every other marker and only empties the history |
| Trigger.ModeMarkerSelectsStyle | src/naiad/core/trigger_processor.py:35-59 | a mode marker switches to its style as handle_mode does and touches neither store |
| Trigger.TriggerProcessor.constructor | src/naiad/core/trigger_processor.py:11-15 | a new processor is running over the markers already present |
| Trigger.TriggerProcessor.Stop | src/naiad/core/trigger_processor.py:155-158 | stop clears the running flag and keeps the markers |
| Trigger.TriggerProcessor.FindMarker | src/naiad/core/trigger_processor.py:24-147 | the chain of exists() tests finds the first present marker |
| Trigger.TriggerProcessor.Dispatch | src/naiad/core/trigger_processor.py:24-147 | the application changes as the marker's handler states; for print_artifact the saved name is the one save_artifact chose |
| Trigger.TriggerProcessor.DispatchSession | src/naiad/core/trigger_processor.py:24-34 | the conversation handlers change the application as HandleConversation states |
| Trigger.TriggerProcessor.DispatchControl | src/naiad/core/trigger_processor.py:35-80 | the mode and speech handlers change the application as HandleControl states |
| Trigger.TriggerProcessor.DispatchArtifact | src/naiad/core/trigger_processor.py:88-117 | the artifact handlers change the application as HandleArtifact states |
| Trigger.TriggerProcessor.DispatchChat | src/naiad/core/trigger_processor.py:118-142 | the chat handlers change the application as HandleChat states |
| Trigger.TriggerProcessor.Step | src/naiad/core/trigger_processor.py:20-153 | one pass of the loop body dispatches the first present marker and leaves application and markers as Cycle states |
| Trigger.TriggerProcessor.Run | src/naiad/core/trigger_processor.py:17-153 | the loop runs one cycle per input until stop is called; a stopped processor runs no cycle and changes nothing, and it stops at the first cycle that calls stop |
| Components.ExampleTexts | src/naiad/ai/anthropic_components.py:81-85 | one "Input: …\nTraduzione: …" paragraph per example, in order |
| Components.PromptParts | src/naiad/ai/anthropic_components.py:70-85 | the base prompt first, then the style paragraph when there is a style, then for translation with examples the header and at most three example paragraphs |
| Components.AppendExamples | src/naiad/ai/anthropic_components.py:81-85 | the loop appends the paragraphs of the first three examples, or of all when there are fewer |
| Components.BuildSystemPrompt | src/naiad/ai/anthropic_components.py:6-87 | the prompt is the parts of PromptParts joined with blank lines |
| Components.SystemPromptStartsWithBase | src/naiad/ai/anthropic_components.py:72-87 | every system prompt opens with the base prompt |
| Components.PromptIgnoresExamplesOutsideTranslation | src/naiad/ai/anthropic_components.py:79-85 | outside translation the examples make no difference to the prompt |
| Components.Parse | src/naiad/ai/anthropic_components.py:101-130 | parsing fails exactly when the reply has no first text block; the failure text is "Error parsing Anthropic response: " followed by the IndexError text for an empty content list, or by the AttributeError naming the block class that has no text |
| Components.ParsePlainText | src/naiad/ai/anthropic_components.py:106-127 | a reply without "metadata:" passes through unchanged, with the standard metadata |
| Components.ParseSplitsTrailer | src/naiad/ai/anthropic_components.py:116-125 | with "metadata:" the content is the stripped text before its first occurrence; the standard keys stay, and an undecodable trailer leaves the metadata standard |
| Components.ParseRemovesMarker | src/naiad/ai/anthropic_components.py:116-125 | parsed content never holds "metadata:" |
| Components.LastN | src/naiad/ai/anthropic_components.py:154 | the last min(n, length) items, in their order |
| Components.PrepareMessages | src/naiad/ai/anthropic_components.py:137-162 | the backward loop returns the last min(10, length) messages of the history in chronological order, copying role and content |
| Provider.GetModelConfig | src/naiad/ai/anthropic_provider.py:104-133 | a configuration with "model" and "parameters" is kept as it is; a missing or empty one becomes the Haiku default; a truthy number or boolean fails with the TypeError naming its type; a dictionary result always has both keys |
| Provider.BuildRequest | src/naiad/ai/anthropic_provider.py:146-179 | the request holds the last min(10, length) history messages followed by the prompt as a user message, and the system prompt of the context's style and examples; parameters that are not a dictionary fail with CPython's "argument after ** must be a mapping, not <type>", and parameters repeating model, messages or system with its "got multiple values" TypeError |
| Provider.RepeatedKeyword | src/naiad/ai/anthropic_provider.py:174-179 | a keyword is reported exactly when the parameters repeat one of the three passed explicitly |
| Provider.GenerateResponse | src/naiad/ai/anthropic_provider.py:135-204 | the reply to the built request, parsed, or the error message a ProviderException carries: "Error calling Anthropic API: " for an APIError, "Unexpected error: " for every other exception, raised while building the request, by the client or by the parser |
| Provider.RespondAnswersRequest | src/naiad/ai/anthropic_provider.py:174-197 | a successful reply's content is the parsed text of the client's answer to exactly the built request |
| Provider.RequestBuiltForUsableConfig | src/naiad/ai/anthropic_provider.py:172-179 | with a usable configuration the request is built exactly when its parameters are a dictionary repeating none of model, messages and system, and names its model; a repeated keyword gives its TypeError |
| Provider.RequestFallsBackToHaiku | src/naiad/ai/anthropic_provider.py:116-133 | without a usable configuration the Haiku model is requested with temperature 0.7 and 1000 tokens |
| Provider.IsItalianWitnesses | src/naiad/ai/anthropic_provider.py:240-258 | the heuristic holds exactly when two different common Italian words occur among the lower-cased words |
| Provider.ValidateResponse | src/naiad/ai/anthropic_provider.py:206-237 | a reply is valid exactly when it has at least three words, passes the Italian test and finished with "stop" |
| Provider.ChatPromptLines | src/naiad/ai/anthropic_provider.py:321-331 | nine lines: the platform guideline looked up in lower case, the tone line, and the fixed reminders |
| Provider.ChatPromptLookups | src/naiad/ai/anthropic_provider.py:323-325 | platforms differing only in case get one guideline; an unknown tone gives an empty line |
| Provider.StyleSpecificParams | src/naiad/ai/anthropic_provider.py:335-365 | no style gives no parameters; each style a temperature and a token limit |
| Orchestrator.Session.constructor | src/naiad/ai/orchestrator.py:30-37 | a new session has the style and provider asked for, no interactions, and its id and both times taken from the clock |
| Orchestrator.Session.AddInteraction | src/naiad/ai/orchestrator.py:39-41 | the interaction is appended and the update time set |
| Orchestrator.MessagesOf | src/naiad/ai/orchestrator.py:156-160 | each message becomes its role/content pair, in order |
| Orchestrator.FlattenLength | src/naiad/ai/orchestrator.py:156-160 | user/assistant interactions flatten to two messages each |
| Orchestrator.OrchestratorHistoryFits | src/naiad/ai/orchestrator.py:149-162 | the context history is the messages of the last five interactions, at most ten, so prepare_messages keeps all of it |
| Orchestrator.OrchestratorPromptIsBase | src/naiad/ai/orchestrator.py:149-162 | the orchestrator's context has no style, so the system prompt is the base prompt alone and the examples never reach the model |
| Orchestrator.RecordedAnswerIsReply | src/naiad/ai/orchestrator.py:126-143 | a recorded exchange always carries a real answer, never the apology |
| Orchestrator.AIOrchestrator.constructor | src/naiad/ai/orchestrator.py:81-107 | no active sessions and no translation examples |
| Orchestrator.AIOrchestrator.CreateSession | src/naiad/ai/orchestrator.py:109-113 | a new empty session is registered under its id and nothing else changes |
| Orchestrator.AIOrchestrator.ProcessPrompt | src/naiad/ai/orchestrator.py:115-147 | an unknown id is the not-found error; otherwise the answer is the provider's, or the apology for an invalid reply; a valid reply appends exactly one user-then-assistant interaction and anything else leaves the session unchanged |
| Orchestrator.AIOrchestrator.SaveTranslationExample | src/naiad/ai/orchestrator.py:164-173 | exactly one example is appended |
| Orchestrator.AIOrchestrator.GetSessionSummary | src/naiad/ai/orchestrator.py:175-188 | a summary exactly for a registered id, with its style and provider values and its interaction count |
| Settings.MergeConfigs | src/naiad/config/settings.py:108-116 | the loop computes the recursive merge of the user configuration over the defaults |
| Settings.MergedKeys | src/naiad/config/settings.py:108-116 | the merge holds exactly the keys of the defaults and of the user configuration |
| Settings.MergeKeepsDefaults | src/naiad/config/settings.py:110 | a default the user does not mention survives unchanged |
| Settings.MergeUserWins | src/naiad/config/settings.py:111-116 | a user value replaces the default unless both are dictionaries |
| Settings.MergeSelf | src/naiad/config/settings.py:108-116 | merging a configuration with itself gives it back |
| Settings.MergeIdempotent | src/naiad/config/settings.py:108-116 | applying the same user configuration twice equals applying it once |
| Settings.MergeUserLeaf | src/naiad/config/settings.py:108-116 | every non-dictionary value the user sets at a path is what the merged configuration holds there |
| Settings.Get | src/naiad/config/settings.py:118-127 | the value at the dot-separated path, or the default where indexing would raise KeyError or TypeError |
| Settings.ModelsKeySplits | src/naiad/config/settings.py:129-132 | the model_configs key names the path api, anthropic, models |
| Settings.DefaultModelKeySplits | src/naiad/config/settings.py:139-142 | the default-model key names the path api, anthropic, default_model |
| Settings.ModelConfigs | src/naiad/config/settings.py:129-132 | the models table, or an empty dictionary when the path is missing |
| Settings.DefaultModel | src/naiad/config/settings.py:139-142 | the configured default model, or Haiku when the path is missing |
| Settings.DefaultConfigFacts | src/naiad/config/settings.py:10-68 | the built-in configuration has a model entry with model and parameters for every style and no default_model, so the fallback model is Haiku |
| FileNames.ReplaceChar | src/naiad/core/artifact_manager.py:63-64 | str.replace of one character: same length, each occurrence replaced and every other character kept |
| FileNames.SanitizeFilename | src/naiad/core/artifact_manager.py:49-73 | the replace loop and strip compute the sanitised name, with the placeholder for an empty result |
| FileNames.PlaceholdersClean | src/naiad/core/chat_manager.py:81-105 | both placeholders are non-empty, unpadded and free of refused characters |
| FileNames.SanitizedIsClean | src/naiad/core/artifact_manager.py:49-73 | a sanitised name is non-empty, has no surrounding whitespace and none of the characters Windows refuses |
| FileNames.SanitizeIdempotent | src/naiad/core/artifact_manager.py:49-73 | sanitising a sanitised name changes nothing |
| FileNames.TitleBounds | src/naiad/core/artifact_manager.py:21-43 | a derived title is at most 50 characters; one that is cut is exactly 50, the first 47 characters of the joined words and an ellipsis |
| FileNames.TitleOfWordsIsStripped | src/naiad/core/artifact_manager.py:21-43 | a text with a word gives a non-empty title with no leading whitespace |
| FileNames.WordsOfJoin | src/naiad/core/artifact_manager.py:33-39 | splitting words joined by single spaces gives the words back |
| FileNames.ShortTextIsOwnTitle | src/naiad/core/artifact_manager.py:21-43 | a text of at most five single-spaced words within 50 characters is its own title |
| FileNames.ChatTitleFromLastUser | src/naiad/core/chat_manager.py:107-134 | a chat is titled from its last user message, whatever follows it |
| FileNames.ChatTitleWithoutUser | src/naiad/core/chat_manager.py:107-134 | a chat without a user message gets the placeholder title |
| Base.StyleFromValue | src/naiad/ai/base.py:8-13 | a style is found exactly for a value some style has, and its value is the one asked for |
| Base.StyleValueInjective | src/naiad/ai/base.py:8-13 | different styles have different values |
| Ranking.InsertDescPermutes | src/naiad/core/artifact_manager.py:136-137 | insertion adds exactly the one item to the ranking |
| Ranking.InsertDescSorted | src/naiad/core/artifact_manager.py:136-137 | inserting into a newest-first ranking keeps it newest first |
| Ranking.SortDescSpec | src/naiad/core/chat_manager.py:213-214 | the ranking is ordered by decreasing date and is a permutation of the items given |
| Ranking.NewestRanksFirst | src/naiad/core/artifact_manager.py:136-137 | an item strictly newer than every other comes first |
| Ranking.WithKeyInsert | src/naiad/core/chat_manager.py:213-214 | insertion puts the new item before every item of its own key and leaves the order of the items of every key otherwise as it was |
| Ranking.SortDescStable | src/naiad/core/chat_manager.py:213-214 | the sort is stable: the items sharing any one key appear in the ranking in their original order |
| Playback.FreshIsValid | src/naiad/utils/tts_provider.py:13-31 | a provider that has spoken nothing is valid, not playing and not muted |
| Playback.SweepTracked | src/naiad/utils/tts_provider.py:190-206 | the first pass of the cleanup removes the stale tracked files other than the current one, with their entries, sparing a locked file still on disk |
| Playback.SweepOrphans | src/naiad/utils/tts_provider.py:208-214 | the second pass removes every untracked temporary file other than the current one and not locked |
| Playback.Sweep | src/naiad/utils/tts_provider.py:187-217 | the two passes compute the sweep |
| Playback.SweptKeepsCurrent | src/naiad/utils/tts_provider.py:187-217 | the sweep keeps the state valid, changes only the directory and the tracked files, and keeps the current file and its time |
| Playback.SweptRemovesOnlyOld | src/naiad/utils/tts_provider.py:187-217 | a file removed is not current, not locked, and was a stale tracked file or an untracked temporary file |
| Playback.SweptRemovesStale | src/naiad/utils/tts_provider.py:194-206 | every stale tracked file but the current one goes with its entry unless locked |
| Playback.SweptKeepsForeignFiles | src/naiad/utils/tts_provider.py:208-214 | a file neither tracked nor named like a temporary file survives |
| Playback.SweptIdempotent | src/naiad/utils/tts_provider.py:187-217 | sweeping twice at the same instant removes nothing more |
| Playback.TransitionsKeepValid | src/naiad/utils/tts_provider.py:76-147 | stop, pause, resume, restart, mute and a successful playback keep the state valid |
| Playback.StopSilences | src/naiad/utils/tts_provider.py:76-79 | a successful stop leaves nothing playing or paused, keeps the mute flag and the current file |
| Playback.PauseResumeRoundTrip | src/naiad/utils/tts_provider.py:81-101 | pausing a playing provider pauses it and resuming gives back the same state |
| Playback.MutedIgnoresControls | src/naiad/utils/local_tts_provider.py:188-222 | while muted, pause, resume and restart change nothing |
| Playback.MuteIdempotent | src/naiad/utils/tts_provider.py:117-122 | muting twice is muting once, the flag is set, and a successful mute stops playback |
| Playback.RestartReplaysCurrent | src/naiad/utils/tts_provider.py:103-115 | an unmuted valid provider with a current file plays it again from the start |
| TtsProvider.SpeechFileIsTemp | src/naiad/utils/tts_provider.py:45 | the file speak writes is one the cleanup recognises as temporary |
| TtsProvider.SpeakKeepsValid | src/naiad/utils/tts_provider.py:33-74 | speak keeps the provider state valid in every outcome |
| TtsProvider.MutedSpeakOnlyRecords | src/naiad/utils/tts_provider.py:33-39 | a muted provider only remembers the text and does not raise |
| TtsProvider.Spoken | src/naiad/utils/tts_provider.py:33-74 | speak always remembers the text and keeps the mute flag; a muted provider does nothing else and does not raise; otherwise the call raises exactly when the synthesis fails |
| TtsProvider.SpeakPlays | src/naiad/utils/tts_provider.py:33-74 | a successful synthesis leaves its file current, on disk and playing, remembers the text and keeps the file it replaced |
| TtsProvider.UnplayedFileRemoved | src/naiad/utils/tts_provider.py:47-74 | a file written but not played is removed by the cleanup, the call raises and the current file is unchanged |
| TtsProvider.MuteThenUnmuteReplays | src/naiad/utils/tts_provider.py:117-131 | muting then unmuting replays the last text when the synthesis succeeds |
| TtsProvider.GTTSProvider.constructor | src/naiad/utils/tts_provider.py:13-31 | the provider starts fresh over the existing directory and sweeps it |
| TtsProvider.GTTSProvider.CleanupOldFiles | src/naiad/utils/tts_provider.py:187-217 | the state becomes the sweep of the old state over mp3 files |
| TtsProvider.GTTSProvider.StopPlayback | src/naiad/utils/tts_provider.py:133-147 | the state becomes the stopped state |
| TtsProvider.GTTSProvider.SafeCleanup | src/naiad/utils/tts_provider.py:178-185 | stop, then sweep |
| TtsProvider.GTTSProvider.Speak | src/naiad/utils/tts_provider.py:33-74 | the new state and whether the call raised are those of the speak specification; validity is kept |
| TtsProvider.GTTSProvider.Stop | src/naiad/utils/tts_provider.py:76-79 | stop playback then sweep, keeping validity |
| TtsProvider.GTTSProvider.Pause | src/naiad/utils/tts_provider.py:81-88 | the pause transition, keeping validity |
| TtsProvider.GTTSProvider.Resume | src/naiad/utils/tts_provider.py:90-101 | the resume transition, keeping validity |
| TtsProvider.GTTSProvider.Restart | src/naiad/utils/tts_provider.py:103-115 | the restart transition, keeping validity |
| TtsProvider.GTTSProvider.Mute | src/naiad/utils/tts_provider.py:117-122 | the mute transition, keeping validity |
| TtsProvider.GTTSProvider.Unmute | src/naiad/utils/tts_provider.py:124-131 | clear the flag and replay the last text, keeping validity |
| TtsProvider.GTTSProvider.Shutdown | src/naiad/utils/tts_provider.py:149-176 | the directory is swept and the flags stay |
| LocalTtsProvider.LoadWithRetry | src/naiad/utils/local_tts_provider.py:151-164 | playback succeeds exactly when the mixer refuses fewer than three attempts; the attempts made are one more than the refusals, and never more than three |
| LocalTtsProvider.SpeakFromFileExactly | src/naiad/utils/local_tts_provider.py:121-182 | the text is played from a file exactly when unmuted, the engine is up, the file is non-empty and a load succeeds, and then that file is current and playing; it is spoken directly exactly when the file route fails and the fallback works; otherwise the current file is unchanged; the text is always remembered |
| LocalTtsProvider.Spoken | src/naiad/utils/local_tts_provider.py:121-182 | speak always remembers the text and keeps the mute flag; a muted provider or one without a started engine says nothing; the text plays from a file exactly when unmuted, started, written and loaded within three attempts |
| LocalTtsProvider.SpeakKeepsValid | src/naiad/utils/local_tts_provider.py:121-182 | speak keeps the provider state valid |
| LocalTtsProvider.ShutdownResets | src/naiad/utils/local_tts_provider.py:256-295 | after shutdown nothing plays and no file is current, the mute flag and last text survive, and the state is valid |
| LocalTtsProvider.LocalTTSProvider.constructor | src/naiad/utils/local_tts_provider.py:14-44 | the provider starts fresh over the existing directory, records whether the engine started, and sweeps |
| LocalTtsProvider.LocalTTSProvider.CleanupOldFiles | src/naiad/utils/local_tts_provider.py:306-335 | the state becomes the sweep of the old state over wav files |
| LocalTtsProvider.LocalTTSProvider.StopPlayback | src/naiad/utils/local_tts_provider.py:240-254 | the state becomes the stopped state |
| LocalTtsProvider.LocalTTSProvider.GenerateSpeechFile | src/naiad/utils/local_tts_provider.py:96-119 | a file is returned exactly when the engine is up and the rendering is non-empty; any written file, even empty, is added to the directory |
| LocalTtsProvider.LocalTTSProvider.Speak | src/naiad/utils/local_tts_provider.py:121-182 | the new state and the voice used are those of the speak specification; validity is kept |
| LocalTtsProvider.LocalTTSProvider.Stop | src/naiad/utils/local_tts_provider.py:183-186 | stop playback then sweep, keeping validity |
| LocalTtsProvider.LocalTTSProvider.Pause | src/naiad/utils/local_tts_provider.py:188-195 | the pause transition, keeping validity |
| LocalTtsProvider.LocalTTSProvider.Resume | src/naiad/utils/local_tts_provider.py:197-208 | the resume transition, keeping validity |
| LocalTtsProvider.LocalTTSProvider.Restart | src/naiad/utils/local_tts_provider.py:210-222 | the restart transition, keeping validity |
| LocalTtsProvider.LocalTTSProvider.Mute | src/naiad/utils/local_tts_provider.py:224-229 | the mute transition, keeping validity |
| LocalTtsProvider.LocalTTSProvider.Unmute | src/naiad/utils/local_tts_provider.py:231-238 | clear the flag and replay the last text, keeping validity |
| LocalTtsProvider.LocalTTSProvider.Shutdown | src/naiad/utils/local_tts_provider.py:256-295 | the state becomes the shutdown state, which is valid |
| Text.StripShape | src/naiad/core/artifact_manager.py:67 | strip() leaves no surrounding whitespace and drops nothing but whitespace from either end |
| Text.StripIdempotent | src/naiad/core/chat_manager.py:99 | stripping twice is stripping once |
| Text.WordsAreWords | src/naiad/core/artifact_manager.py:33 | every item split() produces is a non-empty run without whitespace |
| Text.NoWordsStripsEmpty | src/naiad/core/artifact_manager.py:33 | split() finds no word exactly when the text strips to the empty string |
| Text.Lower | src/naiad/ai/anthropic_provider.py:252 | lower() keeps the length and lowers each character |
| Text.Find | src/naiad/ai/anthropic_components.py:117-119 | the index found is the first occurrence of the marker, and none means no occurrence at all |
| Text.SplitOnJoin | src/naiad/config/settings.py:122 | split('.') of a piece without dots, a dot and a rest gives the piece followed by the rest's pieces |
| Text.LastIndexOf | src/naiad/core/artifact_manager.py:173 | the position found holds the character and none follows it; none means the character is absent |
| Text.ParseIntRoundTrip | src/naiad/core/main.py:273-276 | int(str(i)) == i for every integer |
| Text.ParseInt | src/naiad/core/main.py:273-276 | a number exactly when the text is one or more ASCII digits, optionally after a sign; a leading minus gives a value not above zero, otherwise not below |
| Text.IntToStringInjective | src/naiad/core/main.py:273-276 | different numbers print differently, so a spoken number names one item |

## Left out

- Clipboard access through pyperclip, the keystrokes of notify_grid3, the lock file, logging, the process lifecycle, the webview window and `time.sleep` are I/O. The clipboard is a field and the notification changes nothing.
- The Api's tts_* methods, close_window and get_asset_path only forward to the speech provider or the window.
- The Anthropic HTTP client, the gTTS, pyttsx3 and pygame calls, the file system and JSON files are replaced by parameters: a reply function, outcome flags (fails, locked, rendering, load failures) and maps of records.
- Dates are integers. The spoken date string comes from a formatting parameter, so its exact text is not modelled.
- Temperatures and other floating-point parameters are opaque `Value.Float` values.
- Python's `isdigit`, `split` and `strip` are modelled on ASCII digits and ASCII whitespace, and `lower` on ASCII and Latin-1 capitals; other Unicode characters are ordinary characters.
- Settings loading from YAML and the environment-variable overrides are I/O; only the merge, the lookup and the built-in table are modelled.
- Concurrency is left out: the local engine's initialisation thread and its lock, `_wait_for_init`, and files that disappear between an existence check and a read.
- The mixer's own life cycle (init, quit) is left out: the providers' state is their flags, the current file, the tracked files and the directory.
- Exception handlers that only guard against errors the modelled code cannot raise are not modelled.
- The superseded copies (naiad_ui.py, naiad_ui_old.py, old_api.py, local_tts_provider_V1.py, enhanced-tts.py), ui_manager.py, exit_handler.py, environment.py, logger.py and the build scripts are not part of this model.
- The provider's unused `_build_system_prompt` and `_old_get_model_config`, the `STYLE_MODELS` table and `get_chat_content` of the chat store are not called by the modelled code and are left out.
- The OpenAI and Perplexity providers are stubs; the orchestrator model gives them their constant replies and does not model them further.
- Orchestrator.AIOrchestrator.ProcessPrompt: the source awaits the Anthropic provider's synchronous methods, which Python would refuse at run time; the model treats the calls as if they returned their values.
- Orchestrator.AIOrchestrator.constructor: the translation-example store starts empty, and loading examples from disk is not modelled.
- Trigger.TriggerProcessor.Run: the polling cycles are a finite sequence of inputs; Run states how many cycles ran and that it stops exactly after the input that clears the flag, while what each cycle does is stated by Step.
- UiApi.Api.ReadChat: the reply found by the backward scan is returned as text through `Json.Show`; Python hands the stored value to the interface as it is, which differs only when the stored content is not a string.
- UiApi.Api.ResumeChat: the session's history holds role/content messages only. Python installs the stored value as it is before the scan; the model installs it only when every item reads back as a message, and otherwise (a scan failure, or items before the last reply that are not messages) keeps the current history. A stored title that is not a string clears the session title, where Python would install the value as it is.
- Json.Show: str() is exact for strings, integers, booleans and None; a float, list or dictionary is shown by its type name, since Python's repr of those is not modelled.
- Json.KeyIndexError: the texts of the exceptions raised by the backward scan, the response parser, the model-configuration lookup and the request construction follow the wording of CPython 3.11; other interpreter versions phrase some of them differently.
- Provider.GenerateResponse: the TypeErrors of the call to `client.messages.create` name the function as CPython prints the SDK's `anthropic.resources.messages.Messages.create`, which depends on the SDK version. When the parameters repeat more than one explicit keyword, Python names the first in the dictionary's order, and the model, whose dictionaries are unordered, names the first of model, messages and system. Other exceptions of the client are an input (`OtherError`) with their text.
- Artifacts.FreeName: store names are compared exactly, as on a case-sensitive file system. On Windows, where the program keeps its data, `exists()` ignores letter case, so Python would also skip a name that differs from a taken one only in case.
- Artifacts.ArtifactManager.SaveArtifact: "the first free name" is free by exact comparison. A name that differs from a stored one only in letter case counts as free here, where the Windows file system counts it as taken. The `*.txt` listing likewise matches the extension exactly.
- Chats.StoredSpec: writing replaces only a file of exactly the same name. On Windows `write_text` also replaces, keeping the old spelling, a file whose name differs only in letter case, so the program would list one chat where the model lists two. The `*.json` listing likewise matches the extension exactly.
- Chats.ChatManager.SaveChat: the same exact-name comparison as Chats.StoredSpec.
- Text.ParseInt: accepts an optional sign followed by ASCII digits; Python's `int()` also accepts underscores between digits and non-ASCII decimal digits, which the model treats as not a number.
- Orchestrator.Session.constructor: `session.context` is always the empty dictionary and is only copied by `_prepare_context` (src/naiad/ai/orchestrator.py:35, 150-153), so the session has no context field and the prepared context starts empty.
- App.NAIADApplication.SpeakText: the provider raising inside speak is not modelled; speech is a log entry.
- AppState.ModeConfig: requires the models table to be a dictionary, as the built-in settings supply (Settings.DefaultConfigFacts); a user file that replaced it by another kind of value would make Python's `get` raise, and that case is not modelled.
- Chats.StyleName serves both `_get_style_name` of the application and the style names of format_chats_list; the two tables are identical.
