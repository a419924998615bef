# Photon Physics Pals, modelled in Dafny

Photon is a learning app in which a user chats with replicas of famous
physicists, keeps a journal of notes from those chats, and can create and
mint replicas of their own. This project models its core logic and proves
properties of that logic:

- the small Express backend that binds each wallet address to one notebook
  page on the document platform and appends notes to it
  (`notebook_server.dfy`);
- the user context: the notes list and the two selection lists
  (`user_context.dfy`), and the note editor that adds to it
  (`note_editor.dfy`);
- the journal's per-physicist note filter (`journal.dfy`), the mentors page
  (`replicas.dfy`), the onboarding gate (`onboarding.dfy`), the interest and
  physicist pickers (`selection.dfy`, `physicist_selector.dfy`), likes
  (`likes.dfy`) and the physicist filter bar (`physicist_filters.dfy`);
- the scripted chat with its greetings and keyword-driven replies
  (`chat_history.dfy`), the live replica chat (`sensay_chat.dfy`) and what a
  chat bubble shows (`chat_message.dfy`);
- the Sensay API client: the payload of a new replica (tags, slug, system
  message, voice preview) and the user bootstrap (`sensay_service.dfy`), with
  the URL slug of a new replica in `slug.dfy`; the
  replica list and its field normalisation (`sensay_replicas.dfy`); the
  replica-to-physicist mapping (`map_replica.dfy`, which also gives, as an
  extra, the card the replica list page builds from a normalised replica);
  the NFT metadata of a minted replica (`metadata.dfy`); the replica creation form and its submit
  gate (`create_replica.dfy`).

`common.dfy` holds what these share: JavaScript truthiness and `||`
fallbacks, `filter`, `find`, and the ASCII part of `toLowerCase`, `trim`,
`indexOf` and `includes`. `catalog.dfy` holds the built-in physicist catalog
of `src/hooks/usePhysicists.ts`.

State the code changes step by step is modelled imperatively: the server
process, the user provider, the editor, the onboarding page, the filter bar
and the three hooks are classes whose methods update their fields, each
method's contract giving the new state. The server's handlers are also
given as pure step functions on a state value (`CreateStep`, `AppendStep`);
the methods are proved to coincide with them, and the lemmas about the
server are stated on them. Expressions of the source (filters, fallbacks,
the keyword rules, the payload) are functions, with their properties as
contracts and lemmas.

Clocks, random numbers and the network are parameters: `Date.now()`, ISO
timestamps and the random slug hash are passed in, and every HTTP request's
outcome (the document platform's reply, the Sensay answers) is an argument
of the operation that makes the request. An `await` or a `setTimeout`
splits an operation into two methods (`BeginSend`/`FinishSend`,
`SendMessage`/`DeliverReply`).

The create endpoint checks the binding map first (backend/server.js:37-40)
and answers an already bound wallet with its page id and no platform call,
so repeated sequential creation is idempotent
(`NotebookServer.RepeatedCreateIsIdempotent`); the check-then-act race
between two concurrent requests is outside the model.

## Model

| member | source | states |
|---|---|---|
| NotebookServer.PageTitle | backend/server.js:51 | the page title is "Physics Notes - " followed by the first eight characters of the address (all of it when shorter) |
| NotebookServer.CreateStep | backend/server.js:28-77 | a missing or empty address answers 400 with no platform call; a bound address answers its page id with no platform call; otherwise exactly one page-creation request with the title and the full address, binding only this address on success (200 with the id) and nothing on failure (500 with the platform's message) |
| NotebookServer.AppendStep | backend/server.js:79-120 | the binding map is never changed; an unbound address answers 400 with no platform call (an absent address reads key "undefined" and the handler throws instead); a bound one sends exactly one append of one paragraph with the content to its page, 200 on success, 500 with the message on failure |
| NotebookServer.InitialProvenance | backend/server.js:26 | the empty map holds no binding without its creation request |
| NotebookServer.CreatePreservesProvenance | backend/server.js:37-68 | after a create call every bound wallet still has a creation request carrying its title and full address |
| NotebookServer.AppendPreservesProvenance | backend/server.js:82-111 | append calls keep that provenance |
| NotebookServer.RepeatedCreateIsIdempotent | backend/server.js:37-40 | once a create has answered 200 with a non-empty id, a second create for the same wallet answers the same and changes nothing, whatever the platform would reply |
| NotebookServer.TenantsAreIndependent | backend/server.js:37-88 | a create or append for one wallet never adds, removes or changes another wallet's binding |
| NotebookServer.AppendsKeepCallOrder | backend/server.js:92-108 | two successful appends land on the bound page in call order |
| NotebookServer.NotebookServer.constructor | backend/server.js:26 | the server starts with no bindings and no platform requests |
| NotebookServer.NotebookServer.CreateNotionPage | backend/server.js:28-77 | the handler's new state and response are those of `CreateStep`, and provenance is kept |
| NotebookServer.NotebookServer.AppendNote | backend/server.js:79-120 | the handler's new state and response are those of `AppendStep`, and provenance is kept |
| UserContext.WithoutId | src/context/UserContext.tsx:50-52 | deletion keeps no note with the id, only notes of the list, and every other note as often as before |
| UserContext.DeleteKeepsOrder | src/context/UserContext.tsx:51 | deleting distributes over concatenation, so the remaining notes keep their order |
| UserContext.DeleteAbsentIsIdentity | src/context/UserContext.tsx:51 | deleting an id no note carries changes nothing |
| UserContext.DeleteIsIdempotent | src/context/UserContext.tsx:51 | deleting the same id twice is deleting it once |
| UserContext.DeleteUndoesAdd | src/context/UserContext.tsx:46-52 | deleting the id of a note just added removes it (and older notes with that id) |
| UserContext.SeedNotesShape | src/context/UserContext.tsx:27-44 | the provider starts with the two seed notes, ids "1" and "2", by Einstein and Newton |
| UserContext.UserProvider.constructor | src/context/UserContext.tsx:24-44 | empty selections, plain language, the seed notes |
| UserContext.UserProvider.AddNote | src/context/UserContext.tsx:46-48 | the new note goes first and the old list follows unchanged |
| UserContext.UserProvider.DeleteNote | src/context/UserContext.tsx:50-52 | the new list is `WithoutId` of the old one |
| UserContext.UserProvider.SetSelectedInterests | src/context/UserContext.tsx:24-56 | the interests are replaced wholesale and nothing else changes |
| UserContext.UserProvider.SetSelectedPhysicists | src/context/UserContext.tsx:25-58 | the physicist ids are replaced wholesale and nothing else changes |
| UserContext.UserProvider.SetUseSimplifiedLanguage | src/context/UserContext.tsx:26-60 | the language flag is set and nothing else changes |
| NoteEditor.PhysicistName | src/components/NoteEditor.tsx:27-40 | the name of the first catalog entry with the id, or "Unknown" when there is none or its name is empty |
| NoteEditor.CanSaveIffVisibleText | src/components/NoteEditor.tsx:33 | a save goes ahead exactly when both title and content hold a non-white-space character |
| NoteEditor.SavedNote | src/components/NoteEditor.tsx:35-42 | the saved note carries the trimmed title and content, the physicist id and name, and the given id and timestamp |
| NoteEditor.SavedNoteIsTrimmed | src/components/NoteEditor.tsx:33-38 | a saved title and content are non-empty and start and end with visible characters |
| NoteEditor.NoteEditor.constructor | src/components/NoteEditor.tsx:29-30 | the draft starts from the initial note's title and content, or empty |
| NoteEditor.NoteEditor.SetTitle | src/components/NoteEditor.tsx:29 | the title is replaced |
| NoteEditor.NoteEditor.SetContent | src/components/NoteEditor.tsx:30 | the content is replaced |
| NoteEditor.NoteEditor.HandleSave | src/components/NoteEditor.tsx:32-45 | with a blank title or content nothing happens; otherwise the note is put first in the context's notes and then `onSave` runs |
| Journal.FilteredNotes | src/pages/Journal.tsx:15-17 | the "all" tab shows every note; another tab shows only that physicist's notes, all of them, each from the journal |
| Journal.FilteredNotesKeepOrder | src/pages/Journal.tsx:15-17 | the shown notes keep the journal's order |
| Journal.EmptyJournalIff | src/pages/Journal.tsx:78 | the empty-journal panel shows exactly when the tab has no note ("all": the journal is empty) |
| Selection.Without | src/components/InterestSelector.tsx:34 | removal drops every copy of the item and keeps every other item as often as before |
| Selection.Toggle | src/components/InterestSelector.tsx:32-38 | toggling flips whether the item is selected, keeps every other item as often as before, and appends a new item at the end |
| Selection.ToggleKeepsOthersInOrder | src/components/InterestSelector.tsx:32-38 | the other items keep their relative order |
| Selection.ToggleTwiceRestores | src/components/InterestSelector.tsx:32-38 | toggling an unselected item twice restores the selection |
| Selection.ToggleTwiceMovesToEnd | src/components/InterestSelector.tsx:32-38 | toggling a selected item twice moves it, once, to the end |
| Selection.ToggleKeepsDistinct | src/components/InterestSelector.tsx:32-38 | a selection without repeats stays without repeats |
| Selection.ToggleFlipsBadge | src/components/InterestSelector.tsx:45 | a click flips the clicked badge between "default" and "outline" and no other badge |
| Selection.InterestsAreDistinct | src/components/InterestSelector.tsx:5-21 | fifteen topics are offered, no two alike |
| PhysicistSelector.Click | src/components/PhysicistSelector.tsx:19-40 | a click on the Photon Guide changes nothing; any other click toggles that id and keeps every other id as often as before |
| PhysicistSelector.ClickFlipsOwnCard | src/components/PhysicistSelector.tsx:36-40 | a click flips its own card's highlighting unless it is the Photon Guide's, which is always highlighted |
| PhysicistSelector.ClickKeepsGuide | src/components/PhysicistSelector.tsx:28-40 | no click adds the Photon Guide to the selection or removes it |
| Likes.Toggled | src/hooks/useLikes.ts:11-26 | toggling negates the replica's like, adds its key, and keeps every other entry |
| Likes.ToggleTwiceRestores | src/hooks/useLikes.ts:22-33 | toggling twice gives back the same answer from `isLiked` for every replica |
| Likes.ToggleIsLocal | src/hooks/useLikes.ts:22-33 | toggling one replica never changes whether another is liked |
| Likes.LikesHook.constructor | src/hooks/useLikes.ts:7 | nothing is liked at first |
| Likes.LikesHook.ToggleLike | src/hooks/useLikes.ts:10-29 | the map is toggled, the toast is "Replica Unliked"/"destructive" exactly when it was liked, and the returned flag is the new like |
| ChatHistory.Greeting | src/hooks/useChatHistory.ts:15-70 | each greeting has both language variants; an unknown id gets the default greeting |
| ChatHistory.InitialMessages | src/hooks/useChatHistory.ts:13-72 | the reset log is one physicist message with id "1" carrying the greeting |
| ChatHistory.TopicOf | src/hooks/useChatHistory.ts:81-108 | the topic is the first rule whose keywords the lower-cased message contains: gravity/apple, then relativity/time, then radioactivity/radiation |
| ChatHistory.TopicIgnoresCase | src/hooks/useChatHistory.ts:81 | a message and its lower-case form get the same topic |
| ChatHistory.Answer | src/hooks/useChatHistory.ts:84-131 | every answer has both language variants non-empty |
| ChatHistory.PersonaAnswersAreExclusive | src/hooks/useChatHistory.ts:85-101 | Newton's, Einstein's and Curie's own answers to their topics go exactly to Newton, Einstein and Curie |
| ChatHistory.DefaultsNeedNoKeyword | src/hooks/useChatHistory.ts:108-131 | a persona default answer is given only to a message that contains no keyword |
| ChatHistory.KeywordlessMessagesGetDefaults | src/hooks/useChatHistory.ts:108-131 | a message that contains no keyword gets the default of the persona asked: the guide's, Einstein's, Newton's or Curie's, and the general default for any other id |
| ChatHistory.GenerateResponse | src/hooks/useChatHistory.ts:76-140 | the response is a physicist message with the given id and time and both non-empty variants of the chosen answer |
| ChatHistory.ChatHistoryHook.constructor | src/hooks/useChatHistory.ts:7 | the log starts empty |
| ChatHistory.ChatHistoryHook.RunEffect | src/hooks/useChatHistory.ts:10-73 | an empty physicist id leaves the log alone; any other resets it to the greeting |
| ChatHistory.ChatHistoryHook.ChangePhysicist | src/hooks/useChatHistory.ts:10-73 | the log is reset only when the id changes to a non-empty one |
| ChatHistory.ChatHistoryHook.SendMessage | src/hooks/useChatHistory.ts:143-153 | exactly one user message with the content verbatim is appended, and a reply is scheduled |
| ChatHistory.ChatHistoryHook.DeliverReply | src/hooks/useChatHistory.ts:155-158 | the generated response is appended to the log as it is then |
| ChatHistory.ChatHistoryHook.Exchange | src/hooks/useChatHistory.ts:143-159 | an isolated send grows the log by two: the user message, then the physicist's response |
| SensayChat.AssistantMessage | src/hooks/useSensayChat.ts:35-43 | the assistant message carries the completion, or "Sorry, something went wrong." on failure |
| SensayChat.SensayChatHook.constructor | src/hooks/useSensayChat.ts:10-11 | empty log, not loading |
| SensayChat.SensayChatHook.BeginSend | src/hooks/useSensayChat.ts:14-16 | without a replica id or user id nothing changes; otherwise loading is raised and the user message appended before the request |
| SensayChat.SensayChatHook.FinishSend | src/hooks/useSensayChat.ts:35-46 | one assistant message is appended and loading is lowered, whatever the outcome |
| SensayChat.SensayChatHook.SendMessage | src/hooks/useSensayChat.ts:13-47 | an isolated send adds nothing or exactly two entries, user then assistant, and ends not loading |
| ChatBubble.DisplayedContent | src/components/ChatMessage.tsx:18-26 | user messages and plain mode show `content`; a simplified physicist message shows a non-empty `simplifiedContent`, else `content` |
| ChatBubble.BadgeMarksSimplifiable | src/components/ChatMessage.tsx:20-47 | whenever switching modes changes the text, the plain bubble carries the badge; a badged bubble switches to its variant; simplified mode and user messages never show it |
| ChatBubble.ScriptedRepliesAreBadged | src/components/ChatMessage.tsx:47 | every scripted reply is badged in plain mode and shows its simplified answer in simplified mode |
| SensayService.Dedup | src/services/sensay.ts:71 | `[...new Set(xs)]` holds every element once, nothing else, in order of first occurrence |
| SensayService.DedupOfDistinct | src/services/sensay.ts:71 | a list without repeats passes through unchanged |
| SensayService.Tags | src/services/sensay.ts:71 | the tags are distinct, contain every topic, the specialty and the era, and nothing else |
| SensayService.TagsOfFreshTopics | src/services/sensay.ts:71 | distinct topics with a new specialty and era become topics, specialty, era as they are |
| ReplicaSlug.HyphenateLeavesNoSpace | src/services/sensay.ts:75 | after replacing white-space runs no white space is left, and a name without white space is unchanged |
| ReplicaSlug.HyphenateSplit | src/services/sensay.ts:75 | the replacement works run by run: cutting the text anywhere but inside a white-space run cuts the result at the same place |
| ReplicaSlug.HyphenateRun | src/services/sensay.ts:75 | a non-empty run of white space, of any length, becomes exactly one "-" |
| ReplicaSlug.HyphenateJoins | src/services/sensay.ts:75 | two words around a white-space run come out joined by one "-" |
| ReplicaSlug.SlugBase | src/services/sensay.ts:74-76 | the name part of the slug holds only `[a-z0-9-]` |
| ReplicaSlug.SlugBaseJoinsWords | src/services/sensay.ts:74-76 | two words separated by any white-space run give their own slug bases joined by one "-" |
| ReplicaSlug.SlugBaseOfWord | src/services/sensay.ts:74-76 | a word without white space is lower-cased and loses every character outside `[a-z0-9-]`, nothing else |
| ReplicaSlug.SlugBaseFixesSlugs | src/services/sensay.ts:74-76 | a string of slug characters is its own slug base |
| ReplicaSlug.SlugBaseIdempotent | src/services/sensay.ts:74-76 | normalising a slug base again changes nothing |
| ReplicaSlug.DecimalString | src/services/sensay.ts:77 | the timestamp is written with decimal digits only |
| ReplicaSlug.DecimalRoundTrip | src/services/sensay.ts:77 | the written timestamp reads back as the timestamp |
| ReplicaSlug.SlugIsUrlSafe | src/services/sensay.ts:72-78 | with a base-36 hash every slug character is in `[a-z0-9-]` |
| SensayService.SystemMessage | src/services/sensay.ts:79-80 | the system message is the Photon context, a space, then the trimmed user text (empty when blank) |
| SensayService.SubstituteLiteral | src/services/sensay.ts:101 | a replacement without `$` is inserted literally |
| SensayService.ReplaceFirst | src/services/sensay.ts:101 | with no occurrence the text is unchanged; otherwise only the first occurrence is replaced, with the `$` patterns expanded |
| SensayService.VoicePreviewReplacesFirstOnly | src/services/sensay.ts:101 | for a name without `$`, the first "{name}" becomes the name and the rest of the text, later placeholders included, is kept |
| SensayService.VoicePreviewWithoutPlaceholder | src/services/sensay.ts:101 | a text without "{name}" is sent as written |
| SensayService.Payload | src/services/sensay.ts:71-102 | the payload is public, has no whitelist or tools, uses the fixed model and memory mode, takes `shortDescription` from the specialty, carries the tags of `Tags` (every topic, the specialty and the era, once each), and the slug, system message and voice text above |
| SensayService.EnsureSensayUser | src/services/sensay.ts:7-41 | a user is created, named by `name` or else the user id, only on a 401; success otherwise only from `/users/me`; any other error, or a failed creation, is rethrown |
| SensayReplicas.NormalizeReplica | src/hooks/useSensayReplicas.ts:5-18 | uuid, name, slug and type are copied; each fallback field takes the camelCase value when truthy, else the snake_case value when truthy, else ""; `introduction` takes its own value when truthy, else the greeting's, and `greeting` its own, else the introduction's; tags are copied, [] when absent; suggested questions come from the camelCase array, else the snake_case one, else [] |
| SensayReplicas.IntroductionAndGreeting | src/hooks/useSensayReplicas.ts:11-16 | if either `introduction` or `greeting` was sent, both are non-empty, each keeping its own value when it has one and otherwise taking the other's value |
| SensayReplicas.NormalizeIsIdempotent | src/hooks/useSensayReplicas.ts:5-18 | normalising a normalised replica changes nothing |
| SensayReplicas.ReplicaFeed.constructor | src/hooks/useSensayReplicas.ts:21-23 | no replicas, loading, no error |
| SensayReplicas.ReplicaFeed.FetchReplicas | src/hooks/useSensayReplicas.ts:25-57 | an item array is normalised element by element, anything else gives []; a failure records the error and keeps the list; loading ends false in every case |
| ReplicaMapping.EraFor | src/utils/mapReplicaToPhysicist.ts:5-19 | a chosen rule is in the table and its keyword occurs in the lower-cased name; no rule means no keyword occurs |
| ReplicaMapping.EraForIsFirstMatch | src/utils/mapReplicaToPhysicist.ts:5-19 | the `if` chain picks the first of einstein, newton, hawking, photon that the lower-cased name contains |
| ReplicaMapping.NamelessReplicaHasNoEra | src/utils/mapReplicaToPhysicist.ts:5 | a missing or empty name matches no rule |
| ReplicaMapping.EraIgnoresCase | src/utils/mapReplicaToPhysicist.ts:5 | the rules ignore case |
| ReplicaMapping.MapReplica | src/utils/mapReplicaToPhysicist.ts:2-32 | id and name are copied; era and wallpaper come from the matching rule, both empty without one; specialty, avatar and knownFor use their fallbacks; bio is `purpose` or ""; topics are the tags or [] |
| ReplicaMapping.ListedReplicaCard | src/pages/ReplicasPage.tsx:14-18 | a card of the replica list has an empty bio and the normalised specialty, avatar, greeting and tags |
| ReplicaMetadata.CreateReplicaMetadata | src/utils/metadata.ts:4-15 | description is the bio or the default; image is `profileImage` or else `profile_image`; the attributes are Era, Specialty, Type, then one Expertise per tag; the URL is the fixed prefix and the uuid ("undefined" when absent) |
| ReplicaMetadata.ExpertiseRoundTrip | src/utils/metadata.ts:8-13 | the Expertise attributes read back as the tags, in order |
| ReplicaMetadata.UntaggedReplica | src/utils/metadata.ts:8-13 | without tags there are exactly the three fixed attributes |
| CreateReplicaPage.ValidateForm | src/pages/CreateReplica.tsx:27-33 | the form is valid exactly when name has at least 3, specialty 5, era 2, bio 50 and knownFor 5 characters, and each rule's message is reported exactly when its rule fails |
| CreateReplicaPage.DefaultsFailExceptEra | src/pages/CreateReplica.tsx:46-52 | the untouched form fails every rule but the era's |
| CreateReplicaPage.OnSubmit | src/pages/CreateReplica.tsx:71-98 | no wallet gives "Wallet Required"; a wallet and no topic "Topics Required"; otherwise "Replica Created!" and only then a delayed move to /profile |
| CreateReplicaPage.HandleSubmit | src/pages/CreateReplica.tsx:157 | invalid values give their field errors and never reach the submit handler |
| CreateReplicaPage.CreatedIff | src/pages/CreateReplica.tsx:71-157 | the profile page is reached exactly from valid values with a wallet and at least one topic |
| CreateReplicaPage.WalletIsCheckedFirst | src/pages/CreateReplica.tsx:72-79 | without a wallet the outcome does not depend on the topics |
| OnboardingPage.ContinueToast | src/pages/Onboarding.tsx:20-45 | "Select interests" exactly when no interest is chosen, "Select physicists" exactly when interests are chosen but no physicist is, the welcome exactly when both lists are non-empty, and every toast but the welcome is destructive |
| OnboardingPage.Onboarding.constructor | src/pages/Onboarding.tsx:17-18 | both lists start empty, so continuing at once asks for interests |
| OnboardingPage.Onboarding.ToggleInterest | src/pages/Onboarding.tsx:65-68 | an interest click toggles the local interests |
| OnboardingPage.Onboarding.ClickPhysicist | src/pages/Onboarding.tsx:80-84 | a card click acts on the local physicist ids as the picker does |
| OnboardingPage.Onboarding.HandleContinue | src/pages/Onboarding.tsx:20-48 | the context receives exactly the two local lists, and navigation goes to /replicas, only when neither is empty; otherwise the context is unchanged |
| ReplicasPage.SelectedPhysicists | src/pages/Replicas.tsx:15-17 | the cards are catalog entries with a selected id, every such entry included |
| ReplicasPage.FollowsCatalogOrder | src/pages/Replicas.tsx:15-17 | the cards follow catalog order |
| ReplicasPage.SelectionOrderIsIrrelevant | src/pages/Replicas.tsx:15-17 | only which ids are selected matters, not their order or repetition |
| ReplicasPage.UnknownIdsShowNothing | src/pages/Replicas.tsx:15-17 | a selected id naming no entry adds no card |
| ReplicasPage.FeaturedMentor | src/pages/Replicas.tsx:19 | the featured mentor is the first catalog entry with id "godofphysics", and is absent exactly when no entry has that id |
| ReplicasPage.CatalogFeaturesGuide | src/pages/Replicas.tsx:19 | with the shipped catalog the featured mentor is its first entry |
| ReplicasPage.FeaturedAlsoListedIffSelected | src/pages/Replicas.tsx:15-65 | the featured mentor also has a card below exactly when its id is selected |
| PhysicistFilterBar.PhysicistFilters.constructor | src/components/PhysicistFilters.tsx:43-46 | the filters start at ("", "all", "") with the topic popover closed |
| PhysicistFilterBar.PhysicistFilters.HandleSearchChange | src/components/PhysicistFilters.tsx:48-70 | only the search changes, and the emitted triple is the new state |
| PhysicistFilterBar.PhysicistFilters.HandleTimelineChange | src/components/PhysicistFilters.tsx:53-70 | only the timeline changes, and the emitted triple is the new state |
| PhysicistFilterBar.PhysicistFilters.HandleTopicChange | src/components/PhysicistFilters.tsx:58-70 | only the topic changes, the popover closes, and the emitted triple is the new state |
| PhysicistFilterBar.PhysicistFilters.SetTopicOpen | src/components/PhysicistFilters.tsx:115 | the popover opens or closes |
| PhysicistFilterBar.PhysicistFilters.ResetFilters | src/components/PhysicistFilters.tsx:72-81 | the state and the emitted triple are ("", "all", "") |

## Left out

- The Express setup, dotenv, CORS, JSON body parsing, the startup connection probe, logging and `listen` (backend/server.js:1-24, 122-123): configuration and I/O with no decision in them.
- Concurrency: two requests for the same wallet that interleave at the `await` can both create a page, the later binding winning. Each handler is modelled as one atomic step.
- JavaScript property lookup on `walletToPage`: keys such as "constructor" or "__proto__" read inherited values. The model treats the object as a plain map.
- Request bodies whose `walletAddress` or `content` is not a string (a number, an object): the model takes a string or an absent value.
- Unicode: `toLowerCase`, `trim` and `\s` are modelled on ASCII only; lengths are counted in characters, not UTF-16 code units.
- Toasts and navigation are modelled as returned values; their rendering, timing and the two-second delay before moving to /profile are not.
- React scheduling: a handler reads the state of the render it was created in. Two clicks handled within one render (for example two `toggleLike` calls) are not modelled; each method sees the previous method's state.
- Likes.LikesHook.ToggleLike: returns the new flag; in the source it is read from the render's snapshot, which agrees for a single click.
- ChatHistory.ChatHistoryHook.DeliverReply: the reply uses the physicist id captured when the message was sent, as the source's closure does; a prop change before the timeout fires is not otherwise modelled.
- SensayChat.SensayChatHook.FinishSend: an answer whose `content` is missing or not a string is not modelled; the completion carries a string.
- The `$<name>` and `$1` replacement patterns: with a string pattern there are no capture groups, so they stand for themselves, as modelled; nothing else of regular-expression replacement is needed.
- The POST of `createSensayReplica` (src/services/sensay.ts:107-128) only returns the answer or rethrows; the model stops at the payload.
- Catalog data beyond what the chosen operations read (avatars and wallpapers of the built-in physicists) is carried as given in src/hooks/usePhysicists.ts and not reasoned about.
- The wallet: the creation page reads `wallet` from a user context whose type (src/context/UserContext.tsx:5-15) does not define it, so the model takes the wallet as a parameter of the submit.
- WalletContext, useNotebookRegistry, useNotion, useUserReplicas, MintButton, sensay-training, KnowledgeContribution and the view components are not part of this model; they are callers or presentation around the modelled core.
