# Chatbot messaging core, modelled in Dafny

This project models the core of a small chat application: a Symfony backend in which users post messages and a set of chatbot plugins answer them, and the Angular frontend that shows the conversation. The model covers:

- **Plugin dispatch** (`ChatbotPluginManager`, module `PluginManager`). The registered plugins are sorted once by descending priority, with the stable `usort` of PHP 8. Each message is then offered to them in that order. A plugin whose `supports` is true has its `process` called inside a `try`; an exception from `process` is logged and swallowed. The warning "no plugins processed the message" is logged when the count of successful calls is 0. The logger is modelled as a trace of events. What each plugin's `supports` and `process` answer for the message is passed in as two functions. The loop is a `for` loop with invariants, proved against a recursive reference function (`Dispatch`) about which the ordering, isolation, counting, error-line and warning properties are proved.
- **The plugins** (`AbstractChatbotPlugin`, `GenericChatbotPlugin`, `DateTimePlugin`, `TimePlugin`; module `ChatbotPlugins`). This covers:
  - content normalisation (`mb_strtolower(trim(...))`) and the keyword search;
  - `supports`, and the reply `process` chooses: the first keyword-table entry found, or the time before the date;
  - the lazily cached bot user, with its email, display name and creation;
  - `createBotResponse`, which saves the reply.

  One `ChatbotPlugin` class with a `Kind` stands for the three concrete classes, which differ only in name, priority, keywords and replies. The module `ChatbotDispatch` puts the three plugins together with the manager.
- **Entities, repositories and the message service**:
  - the `Message` entity, whose setters update it in place and whose `toArray` projection includes the replies;
  - the two repositories, as logs of their `save` calls, the id a flush generates for a new message, and the rows their queries return;
  - `MessageService`.
- **Request DTOs** (`CreateMessageDTO`, `RegisterUserDTO`):
  - `fromArray` on a decoded JSON body, with the TypeError for a non-string value;
  - the validation constraints, including the exact password regular expression and the registration form's own pattern.
- **Frontend**:
  - the `MessageModel` constructor and its tests;
  - the message store service: the list signal, the loading flag, the local add, the status update and the clear;
  - the message component's status label and relative timestamp.

Notes on behaviour that the model follows as the code is written:

- `processMessage` calls `supports` outside its `try`. Under `strict_types`, a concrete plugin's `supports` raises a TypeError for a message that has a user but a null content (`normalizeContent` demands a string). That exception leaves `processMessage`: nothing after it is dispatched and no warning is logged. Only the `process` call sits inside the `try` whose `catch (Throwable $e)` (backend/src/Chatbot/Service/ChatbotPluginManager.php:49) logs and swallows a failure; the `supports` call at :36 does not.
- `createBotResponse` receives the original message but never links the reply to it, so the reply's `inReplyTo` stays null. The plugin tests expect the link (`backend/tests/Unit/Chatbot/Plugin/GenericChatbotPluginTest.php:106` and `:153`), but the model follows the code.
- `getBotUser` is called a second time for the log line after the save. That second call is answered from the cache.
- The password `Regex` constraint uses PCRE's `$` without the `D` modifier, so a single trailing newline after an otherwise valid password is accepted. The registration form's pattern also allows `#` and `~`, which the backend refuses.
- `TimePlugin` repeats `DateTimePlugin`: same name `date_time_chatbot`, same priority, same tables. With both repositories set (see Findings), it would share that plugin's bot user, and a time or date question would be answered twice. As built, only `TimePlugin`'s reply is saved: `DateTimePlugin` fails in `getBotUser` before its save, so a time or date question is answered once.
- The message store toggles its loading flag instead of setting it. With two loads outstanding, the flag reads "not loading" while both are out and "loading" after the first response arrives.
- `updateMessageStatus` in the store ignores the id 0, which is falsy.
- A reply is matched by substring, not by word: `this` contains `hi`.
- `GenericChatbotPlugin` and `DateTimePlugin` declare constructors that never call the parent constructor, so their `userRepository` is never set. This is recorded under Findings. The class model builds every plugin with both repositories, as the abstract constructor and the tests do.
- No caller of `processMessage` appears in the controller or the service. `createMessage` saves the message and invokes no plugin.

## Model

| member | source | states |
|---|---|---|
| PluginManager.Insert | backend/src/Chatbot/Service/ChatbotPluginManager.php:75-78 | inserting a plugin into a list that is sorted by descending priority keeps it sorted, adds exactly that plugin, and places it first among the plugins of its own priority |
| PluginManager.SortByPriority | backend/src/Chatbot/Service/ChatbotPluginManager.php:71-81 | the sorted list is a permutation of the registered plugins, in non-increasing priority, and the plugins of each priority keep their registration order (stable `usort`) |
| PluginManager.TiesKeepRegistrationOrder | backend/src/Chatbot/Service/ChatbotPluginManager.php:75-78 | of two plugins with equal priority, the one registered first is dispatched first |
| PluginManager.Infos | backend/src/Chatbot/Service/ChatbotPluginManager.php:85-91 | the registration log holds one (name, priority) pair per sorted plugin, in sorted order |
| PluginManager.Attempt | backend/src/Chatbot/Service/ChatbotPluginManager.php:40-56 | definition: for one supporting plugin, the debug line and the `process` call, then the error line when the call throws; its consequences are stated by `AttemptShape` |
| PluginManager.Dispatch | backend/src/Chatbot/Service/ChatbotPluginManager.php:35-57 | definition: the reference semantics of the loop, skipping a non-supporting plugin, attempting a supporting one and stopping with a throwing `supports`; its properties are stated by the `Dispatch…` lemmas below and `ProcessMessage` is proved against it |
| PluginManager.MessageLog | backend/src/Chatbot/Service/ChatbotPluginManager.php:59-63 | definition: the loop's events followed by the warning when it ended normally with a count of 0; its meaning is stated by `WarningIff` and `WarningIffZero` |
| PluginManager.ChatbotPluginManager.constructor | backend/src/Chatbot/Service/ChatbotPluginManager.php:21-29 | the manager keeps the plugins sorted by priority and logs one registration event with their count, names and priorities |
| PluginManager.ChatbotPluginManager.TryProcess | backend/src/Chatbot/Service/ChatbotPluginManager.php:40-56 | the debug line and the `process` call are logged, then the error line exactly when `process` throws; the result is true exactly when `process` returned |
| PluginManager.ChatbotPluginManager.ProcessMessage | backend/src/Chatbot/Service/ChatbotPluginManager.php:31-64 | the events appended are those of the reference dispatch over the sorted plugins, followed by the warning exactly when the loop ended normally with a count of 0; the call throws exactly the exception of a throwing `supports` |
| PluginManager.AttemptShape | backend/src/Chatbot/Service/ChatbotPluginManager.php:40-56 | one supporting plugin gives one `process` call, an error line exactly when the call throws, and no warning |
| PluginManager.DispatchHasNoWarning | backend/src/Chatbot/Service/ChatbotPluginManager.php:35-57 | the loop itself never logs the warning |
| PluginManager.DispatchAppend | backend/src/Chatbot/Service/ChatbotPluginManager.php:35-57 | isolation: dispatching two lists in turn is dispatching the first and then, unless a `supports` in it threw, the second, whatever the first plugins' `process` did |
| PluginManager.SupportsThrowEscapes | backend/src/Chatbot/Service/ChatbotPluginManager.php:36-38 | an exception from `supports` ends the dispatch: the events and count so far stand, no later plugin is asked, and the exception escapes |
| PluginManager.DispatchCalls | backend/src/Chatbot/Service/ChatbotPluginManager.php:35-47 | when no `supports` throws, nothing escapes, and `process` is called on exactly the supporting plugins, in sorted order |
| PluginManager.DispatchCount | backend/src/Chatbot/Service/ChatbotPluginManager.php:47-48 | when no `supports` throws, the count is the number of supporting plugins whose `process` returned |
| PluginManager.DispatchFailures | backend/src/Chatbot/Service/ChatbotPluginManager.php:49-56 | when no `supports` throws, an error line is logged, in order, for each supporting plugin whose `process` threw, and for no other |
| PluginManager.CountPlusFailures | backend/src/Chatbot/Service/ChatbotPluginManager.php:40-56 | every supporting plugin is either counted or has an error line |
| PluginManager.WarningIff | backend/src/Chatbot/Service/ChatbotPluginManager.php:59-63 | when no `supports` throws, the warning is logged exactly when every supporting plugin's `process` threw (or none supports the message) |
| PluginManager.WarningIffZero | backend/src/Chatbot/Service/ChatbotPluginManager.php:59-63 | the warning is logged exactly when the loop ended normally with a count of 0 |
| PluginManager.NoPlugins | backend/src/Chatbot/Service/ChatbotPluginManager.php:31-64 | without plugins, no `process` call is made and the one event is the warning |
| ChatbotDispatch.SortLowFirst | backend/src/Chatbot/Service/ChatbotPluginManager.php:75-78 | a low-priority plugin registered before two equal higher-priority plugins is sorted after them, and they keep their order |
| ChatbotDispatch.RegisteredOrder | backend/src/Chatbot/Service/ChatbotPluginManager.php:71-81 | the generic (10), date/time (20) and time (20) plugins are dispatched as date/time, time, generic |
| ChatbotDispatch.DateTimeTieOrder | backend/src/Chatbot/Service/ChatbotPluginManager.php:75-78 | in any registration order in which the date/time plugin precedes the time plugin, it is also dispatched first |
| ChatbotDispatch.NoUserOnlyWarns | backend/src/Chatbot/Plugin/AbstractChatbotPlugin.php:97-100 | a message without a user is supported by no plugin, so the warning is the only event |
| ChatbotDispatch.NullContentEscapes | backend/src/Chatbot/Service/ChatbotPluginManager.php:36-38 | a message with a user and a null content makes the first plugin's `supports` throw the TypeError, which escapes before anything is logged |
| ChatbotDispatch.ContentDispatch | backend/src/Chatbot/Service/ChatbotPluginManager.php:31-64 | for a message with a user and a content, `process` is called exactly on the plugins whose keywords occur in it and nothing escapes; with both repositories set (see Findings), the warning comes exactly when no plugin's keyword occurs |
| ChatbotPlugins.Keys | backend/src/Chatbot/Plugin/GenericChatbotPlugin.php:54 | `array_keys` of the table: its keywords, in table order |
| ChatbotPlugins.Name | backend/src/Chatbot/Plugin/GenericChatbotPlugin.php:57-60 | definition: `getName` of each kind, with `date_time_chatbot` for both date/time plugins (TimePlugin.php:47-50); its consequence is stated by `BotEmailInjective` |
| ChatbotPlugins.Priority | backend/src/Chatbot/Plugin/DateTimePlugin.php:36 | definition: `getPriority` of each kind, 10 for the generic plugin and 20 for both date/time plugins; its consequence for dispatch is stated by `ChatbotDispatch.RegisteredOrder` |
| ChatbotPlugins.Normalize | backend/src/Chatbot/Plugin/AbstractChatbotPlugin.php:79-82 | definition: `mb_strtolower(trim(...))`; its properties are stated by `NormalizeIdempotent`, `NormalizeIgnoresCase` and `NormalizePlain` |
| ChatbotPlugins.SupportsAnswer | backend/src/Chatbot/Plugin/GenericChatbotPlugin.php:46-55 | definition: `supports` for each kind (also DateTimePlugin.php:62-71 and TimePlugin.php:52-61); its meaning is stated by `SupportsIff` |
| ChatbotPlugins.TimeReply | backend/src/Chatbot/Plugin/DateTimePlugin.php:44 | definition: `The current time is <time>.`; `TimeReplyIsNotDateReply` states that it never equals the date reply |
| ChatbotPlugins.DateReply | backend/src/Chatbot/Plugin/DateTimePlugin.php:51 | definition: `Today is <date>.`; `TimeReplyIsNotDateReply` states that it never equals the time reply |
| ChatbotPlugins.FirstResponse | backend/src/Chatbot/Plugin/GenericChatbotPlugin.php:37-43 | definition: the response of the first table entry whose keyword occurs; its meaning is stated by `FirstResponseIsEarliest` |
| ChatbotPlugins.ReplyOn | backend/src/Chatbot/Plugin/DateTimePlugin.php:42-54 | definition: the reply a plugin of each kind chooses for normalised content; its meaning is stated by `TimeBeforeDate`, `GenericMatchIffReply` and `DateTimeMatchIffReply` |
| ChatbotPlugins.Reply | backend/src/Chatbot/Plugin/GenericChatbotPlugin.php:33-44 | definition: `process`'s choice of reply on the raw content, normalised first; `SupportsIffReply` ties it to `supports` |
| ChatbotPlugins.BotEmail | backend/src/Chatbot/Plugin/AbstractChatbotPlugin.php:49 | definition: `bot+<name>@local.io`; `BotEmailInjective` states that it determines the name |
| ChatbotPlugins.NewBotUser | backend/src/Chatbot/Plugin/AbstractChatbotPlugin.php:52-57 | definition: the bot user `getBotUser` creates, with the bot email, the display name, an empty password and the role `ROLE_BOT`; `GetBotUser` saves it when the lookup finds none |
| ChatbotPlugins.NormalizeIdempotent | backend/src/Chatbot/Plugin/AbstractChatbotPlugin.php:79-82 | normalising normalised content changes nothing, so normalising twice in `supports` is harmless |
| ChatbotPlugins.NormalizeIgnoresCase | backend/src/Chatbot/Plugin/AbstractChatbotPlugin.php:79-82 | strings equal up to case normalise to the same string |
| ChatbotPlugins.ContainsKeyword | backend/src/Chatbot/Plugin/AbstractChatbotPlugin.php:84-95 | the loop is true exactly when some keyword, lower-cased, occurs in the normalised content, and false for no keywords |
| ChatbotPlugins.MatchesAnyNormalized | backend/src/Chatbot/Plugin/GenericChatbotPlugin.php:52-54 | searching already normalised content decides the same as searching the raw content |
| ChatbotPlugins.MatchesAt | backend/src/Chatbot/Plugin/AbstractChatbotPlugin.php:88-92 | one keyword that occurs is enough for a match |
| ChatbotPlugins.MatchingIgnoresCase | backend/src/Chatbot/Plugin/AbstractChatbotPlugin.php:84-95 | matching is case-insensitive on the content side |
| ChatbotPlugins.MatchingIgnoresKeywordCase | backend/src/Chatbot/Plugin/AbstractChatbotPlugin.php:89 | adding a keyword's lower-case form as a keyword changes no answer |
| ChatbotPlugins.KeywordsAreLowerCase | backend/src/Chatbot/Plugin/DateTimePlugin.php:22-34 | every keyword of the three plugins is written in lower case |
| ChatbotPlugins.SupportsIff | backend/src/Chatbot/Plugin/GenericChatbotPlugin.php:46-55 | `supports` is true exactly for a message with a user whose content contains one of the plugin's keywords, and it throws exactly for a message with a user and a null content |
| ChatbotPlugins.TimeReplyIsNotDateReply | backend/src/Chatbot/Plugin/DateTimePlugin.php:38-55 | the time reply and the date reply differ, whatever the clock says |
| ChatbotPlugins.FirstResponseIsEarliest | backend/src/Chatbot/Plugin/GenericChatbotPlugin.php:37-43 | a response is found exactly when some keyword of the table occurs, and it is that of the earliest such entry |
| ChatbotPlugins.FirstResponseIffMatch | backend/src/Chatbot/Plugin/GenericChatbotPlugin.php:33-55 | for a table of lower-case keywords, the search in `process` finds an entry exactly when the `supports` search matches |
| ChatbotPlugins.GenericMatchIffReply | backend/src/Chatbot/Plugin/GenericChatbotPlugin.php:33-55 | the generic plugin replies exactly when one of its keywords occurs |
| ChatbotPlugins.DateTimeMatchIffReply | backend/src/Chatbot/Plugin/DateTimePlugin.php:38-71 | a date/time plugin replies exactly when one of its time or date keywords occurs |
| ChatbotPlugins.SupportsIffReply | backend/src/Chatbot/Plugin/TimePlugin.php:28-61 | for every plugin, `supports` on a message with a user holds exactly when `process` produces a reply |
| ChatbotPlugins.TimeBeforeDate | backend/src/Chatbot/Plugin/DateTimePlugin.php:38-55 | a time keyword gives the time reply; the date reply comes exactly when no time keyword but a date keyword occurs; no reply exactly when neither occurs |
| ChatbotPlugins.NormalizePlain | backend/src/Chatbot/Plugin/AbstractChatbotPlugin.php:79-82 | a lower-case string without whitespace at its ends normalises to itself |
| ChatbotPlugins.EarlierEntryWins | backend/src/Chatbot/Plugin/GenericChatbotPlugin.php:37-43 | content containing `hello` gets the `hello` response, whatever later keywords it contains |
| ChatbotPlugins.BotEmailInjective | backend/src/Chatbot/Plugin/AbstractChatbotPlugin.php:49 | two plugin names give the same bot email exactly when they are equal, so with both repositories set (see Findings) the two date/time plugins would share one bot user |
| ChatbotPlugins.BotDisplayName | backend/src/Chatbot/Plugin/AbstractChatbotPlugin.php:74-77 | the display name has the length of the plugin name |
| ChatbotPlugins.BotDisplayNameCase | backend/src/Chatbot/Plugin/AbstractChatbotPlugin.php:74-77 | up to case, the display name is the plugin name with spaces for underscores |
| ChatbotPlugins.DisplayNameSplit | backend/src/Chatbot/Plugin/AbstractChatbotPlugin.php:74-77 | the display name of `a_b` is the capitalised first word, a space, and the display name of `b` |
| ChatbotPlugins.GenericDisplayName | backend/src/Chatbot/Plugin/AbstractChatbotPlugin.php:74-77 | `generic_chatbot` is shown as `Generic Chatbot` |
| ChatbotPlugins.DateTimeDisplayName | backend/src/Chatbot/Plugin/AbstractChatbotPlugin.php:74-77 | `date_time_chatbot` is shown as `Date Time Chatbot` |
| ChatbotPlugins.FirstMatchingResponse | backend/src/Chatbot/Plugin/GenericChatbotPlugin.php:37-43 | the loop with its early return gives the response of the first table entry whose keyword occurs, or none |
| ChatbotPlugins.TimeOrDateResponse | backend/src/Chatbot/Plugin/DateTimePlugin.php:42-54 | the two tests, time first, give the reply of both the date/time and the time plugin |
| ChatbotPlugins.ChatbotPlugin.constructor | backend/src/Chatbot/Plugin/AbstractChatbotPlugin.php:18-23 | a plugin keeps its repositories and starts with no cached bot user |
| ChatbotPlugins.ChatbotPlugin.Supports | backend/src/Chatbot/Plugin/GenericChatbotPlugin.php:46-55 | the answer is false without a user, the TypeError for a null content, and otherwise whether a keyword occurs in the normalised content |
| ChatbotPlugins.ChatbotPlugin.GetBotUser | backend/src/Chatbot/Plugin/AbstractChatbotPlugin.php:46-72 | with no cached user, one lookup by `bot+<name>@local.io`, a new bot user saved with flush only if the lookup finds none, and the result cached; a cached user is returned without touching the repository |
| ChatbotPlugins.ChatbotPlugin.CreateBotResponse | backend/src/Chatbot/Plugin/AbstractChatbotPlugin.php:25-44 | a new message with the text, the bot user, status `received` and no parent, saved once with flush; the flush gives it the generated id and puts it at the head of the stored rows |
| ChatbotPlugins.ChatbotPlugin.ChooseReply | backend/src/Chatbot/Plugin/GenericChatbotPlugin.php:35-43 | the reply chosen for normalised content is the plugin's reply by kind |
| ChatbotPlugins.ChatbotPlugin.Respond | backend/src/Chatbot/Plugin/GenericChatbotPlugin.php:38-41 | a chosen text is saved as one bot reply, which gets the generated id and heads the stored rows; without one, nothing changes |
| ChatbotPlugins.ChatbotPlugin.Process | backend/src/Chatbot/Plugin/DateTimePlugin.php:38-55 | the TypeError for a null content; otherwise at most one bot reply, the one the plugin's reply function selects, saved through `createBotResponse` with the generated id and at the head of the stored rows, and nothing changes when there is none |
| PluginExamples.HelloAndThanks | backend/tests/Unit/Chatbot/Plugin/GenericChatbotPluginTest.php:128-143 | `hello and thanks` gets the `hello` response only |
| PluginExamples.SubstringNotWord | backend/src/Chatbot/Plugin/GenericChatbotPlugin.php:37-43 | `this` gets the `hi` response, because matching is by substring |
| PluginExamples.HelloKeywordMatches | backend/tests/Unit/Chatbot/Plugin/GenericChatbotPluginTest.php:73 | content whose normalisation contains `hello` is supported by the generic plugin |
| PluginExamples.MixedCaseMatches | backend/tests/Unit/Chatbot/Plugin/GenericChatbotPluginTest.php:80-81 | `HELLO` and `HeLLo` are supported by the generic plugin |
| PluginWiring.SupportedFailsAsBuilt | backend/src/Chatbot/Plugin/GenericChatbotPlugin.php:15-20 | with the plugins built as they are, a plugin that supports a message fails on it unless it is a `TimePlugin` |
| PluginWiring.WarningAsBuilt | backend/src/Chatbot/Plugin/DateTimePlugin.php:16-21 | with the plugins built as they are, the warning is logged exactly when no registered `TimePlugin` finds a keyword |
| PluginWiring.GenericOnlyAsBuilt | backend/src/Chatbot/Plugin/GenericChatbotPlugin.php:15-20 | with the plugins built as they are, a message with a generic keyword and no date/time keyword gives the generic attempt ending in the unset-property Error, then the warning |
| PluginWiring.GenericOnlyAnswered | backend/src/Chatbot/Plugin/AbstractChatbotPlugin.php:18-23 | with both repositories set, the same message gives the generic attempt alone, which counts |
| PluginWiring.GreetingAsBuilt | backend/src/Chatbot/Plugin/GenericChatbotPlugin.php:15-20 | with the plugins built as they are, `hello` from a user gives an error line and the warning |
| PluginWiring.GreetingAnswered | backend/src/Chatbot/Plugin/AbstractChatbotPlugin.php:18-23 | with both repositories set, `hello` from a user is answered by the generic plugin |
| Entities.StatusConstantsDistinct | backend/src/Entity/Message.php:20-23 | the four status constants are `sent`, `received`, `pending` and `failed`, pairwise distinct |
| Entities.Message.constructor | backend/src/Entity/Message.php:48-52 | a new message has status `sent`, no replies, and no id, content, user or parent |
| Entities.Message.SetContent | backend/src/Entity/Message.php:64-69 | the content is set, every other field is unchanged, and the setter returns the same object |
| Entities.Message.SetUser | backend/src/Entity/Message.php:76-81 | the user is set, every other field is unchanged, and the setter returns the same object |
| Entities.Message.SetStatus | backend/src/Entity/Message.php:88-93 | any status string is set, every other field is unchanged, and the setter returns the same object |
| Entities.Message.SetInReplyTo | backend/src/Entity/Message.php:100-105 | the parent is set, every other field is unchanged, and the setter returns the same object |
| Entities.Message.ToArray | backend/src/Entity/Message.php:107-119 | the array holds the id, the content, the user's name or null, the status, the parent's id or null, and each reply's own array, in collection order |
| Entities.Message.RepliesUnchanged | backend/src/Entity/Message.php:107-119 | after an update of a message's own fields other than id and replies, its replies project as before, so `toArray` changes in the updated fields only |
| Repositories.MessageRepository.Save | backend/src/Repository/MessageRepository.php:22-29 | the save and its flush flag are recorded; flushing a message without an id assigns it the generated id and puts it at the head of the rows; otherwise the id and the rows stay as they were; nothing else of the message changes and it stays valid |
| Repositories.MessageRepository.FindAllOrderedById | backend/src/Repository/MessageRepository.php:31-38 | all rows, in the database's descending-id order |
| Repositories.MessageRepository.FindByUser | backend/src/Repository/MessageRepository.php:40-49 | the rows owned by the user, in row order |
| Repositories.OwnedBy | backend/src/Repository/MessageRepository.php:40-49 | exactly the messages owned by the user, none added |
| Repositories.Lookup | backend/src/Chatbot/Plugin/AbstractChatbotPlugin.php:50 | a stored user with the email, or none when no stored user has it |
| Repositories.UserRepository.FindByEmail | backend/src/Chatbot/Plugin/AbstractChatbotPlugin.php:50 | the lookup's answer, with the call recorded and nothing stored |
| Repositories.UserRepository.Save | backend/src/Chatbot/Plugin/AbstractChatbotPlugin.php:59 | the user is stored, and the save and its flush flag are recorded |
| Services.MessageService.constructor | backend/src/Service/MessageService.php:14-17 | the service keeps its repository |
| Services.MessageService.GetAllMessages | backend/src/Service/MessageService.php:19-22 | the repository's rows, unchanged |
| Services.MessageService.GetUserMessages | backend/src/Service/MessageService.php:24-27 | exactly the messages of the user |
| Services.MessageService.CreateMessage | backend/src/Service/MessageService.php:29-39 | a new message with the request's text, the user and status `sent`, not a reply, saved once with flush, which gives it the generated id and puts it at the head of the rows; its array holds that id and these fields |
| Services.MessageService.UpdateMessageStatus | backend/src/Service/MessageService.php:41-47 | the same message with its status replaced, by any string, saved once with flush; a stored message keeps its id, its array changes in the status only and the rows stay as they were; a message not stored yet is inserted with the generated id |
| Dtos.Field | backend/src/DTO/RegisterUserDTO.php:41-43 | a missing key or a null gives the empty string, a string is copied, and any other value is the TypeError |
| Dtos.CreateMessageFromArray | backend/src/DTO/CreateMessageDTO.php:23-28 | the request is built exactly when the message field is usable, holding its value |
| Dtos.RegisterUserFromArray | backend/src/DTO/RegisterUserDTO.php:38-45 | the request is built exactly when all three fields are usable, holding their values |
| Dtos.CreateMessageRoundTrip | backend/src/DTO/CreateMessageDTO.php:23-28 | reading back the body the frontend sends gives the request |
| Dtos.RegisterUserRoundTrip | backend/src/DTO/RegisterUserDTO.php:38-45 | reading back the body the frontend sends gives the request |
| Dtos.EmptyBody | backend/src/DTO/RegisterUserDTO.php:38-45 | an empty body gives empty fields in both requests |
| Dtos.NotBlank | backend/src/DTO/CreateMessageDTO.php:12 | definition: `NotBlank` refuses only the empty string; `EmptyFieldsInvalid` states the refusal |
| Dtos.EmailValid | backend/src/DTO/RegisterUserDTO.php:12-14 | definition: `NotBlank` and `Email`, with the address check as a parameter |
| Dtos.PasswordValid | backend/src/DTO/RegisterUserDTO.php:16-25 | definition: `NotBlank`, `Length(min: 8)` and the `Regex`; its meaning is stated by `PasswordValidIff` and `PasswordValidIffPattern` |
| Dtos.NameValid | backend/src/DTO/RegisterUserDTO.php:27-34 | definition: `NotBlank` and `Length(min: 2, max: 255)`; its meaning is stated by `LengthDecides` |
| Dtos.MessageValid | backend/src/DTO/CreateMessageDTO.php:12-19 | definition: `NotBlank` and `Length(min: 1, max: 5000)`; its meaning is stated by `LengthDecides` and `MessageBound` |
| Dtos.FormPasswordValid | frontend/src/app/security/components/register/register.ts:31-35 | definition: `required`, `minLength(8)` and the form's pattern; `BackendStricterThanForm`, `HashOnlyFormAccepts` and `TrailingNewlineOnlyBackendAccepts` compare it with the backend |
| Dtos.PasswordBodyByScan | backend/src/DTO/RegisterUserDTO.php:22 | the four lookaheads and the character class hold exactly when a one-pass scan finds each required kind and no disallowed character |
| Dtos.PasswordValidIffPattern | backend/src/DTO/RegisterUserDTO.php:16-25 | the regex alone decides, since `NotBlank` and `Length(min: 8)` add nothing to it |
| Dtos.PasswordValidIff | backend/src/DTO/RegisterUserDTO.php:21-24 | a password is valid exactly when, apart from one optional final newline, it has at least 8 allowed characters, including a lower-case letter, an upper-case letter, a digit and one of `@$!%*?&` |
| Dtos.TrailingNewlineAccepted | backend/src/DTO/RegisterUserDTO.php:22 | `Password1!` followed by a newline passes the backend rules |
| Dtos.BackendStricterThanForm | frontend/src/app/security/components/register/register.ts:31-35 | every password the backend pattern accepts without a final newline the form accepts too |
| Dtos.HashOnlyFormAccepts | frontend/src/app/security/components/register/register.ts:34 | the form accepts `Password1#`, which the backend refuses |
| Dtos.TrailingNewlineOnlyBackendAccepts | backend/src/DTO/RegisterUserDTO.php:22 | the backend accepts a trailing newline that the form refuses |
| Dtos.EmptyFieldsInvalid | backend/src/DTO/RegisterUserDTO.php:12-34 | the empty string fails `NotBlank` in every field of both requests |
| Dtos.LengthDecides | backend/src/DTO/RegisterUserDTO.php:27-34 | a name is valid exactly when it has 2 to 255 characters, and a message exactly when it has 1 to 5000 |
| Dtos.MessageBound | backend/src/DTO/CreateMessageDTO.php:13-18 | the bound is inclusive: 5000 characters pass and 5001 do not |
| FrontendModel.StatusOf | frontend/src/app/models/message.ts:12-18 | a string read as an enum member is that member's value |
| FrontendModel.StatusValuesDistinct | frontend/src/app/models/message.ts:12-18 | every enum value reads back as its own member, and the values are pairwise distinct |
| FrontendModel.BackendStatusesKnown | backend/src/Entity/Message.php:20-23 | the backend's four statuses are the enum values `sent`, `received`, `pending` and `failed` |
| FrontendModel.OrElse | frontend/src/app/models/message.ts:32-36 | `x \|\| fallback` keeps a non-empty string and falls back for a missing or empty one |
| FrontendModel.FromData | frontend/src/app/models/message.ts:30-39 | the id and parent are copied; text, user, status and timestamps fall back to `''`, `draft` and the current time; each reply is built the same way, with missing replies giving none |
| FrontendModel.FromToData | frontend/src/app/models/message.ts:30-39 | building a model from a complete model's data gives the model back, whatever the clock |
| FrontendModel.IsEmpty | frontend/src/app/models/message.ts:41-43 | definition: the message trimmed is empty; its meaning is stated by `IsEmptyIff` |
| FrontendModel.IsPending | frontend/src/app/models/message.ts:45-47 | definition: the status is `pending`; `StatusTestsExclusive` relates it to the other tests |
| FrontendModel.IsSent | frontend/src/app/models/message.ts:49-51 | definition: the status is `sent`; `StatusTestsExclusive` relates it to the other tests |
| FrontendModel.IsFailed | frontend/src/app/models/message.ts:53-55 | definition: the status is `failed`; `StatusTestsExclusive` relates it to the other tests |
| FrontendModel.IsEmptyIff | frontend/src/app/models/message.ts:41-43 | a message is empty exactly when it consists of white space only |
| FrontendModel.StatusTestsExclusive | frontend/src/app/models/message.ts:45-55 | at most one of `isPending`, `isSent` and `isFailed` holds, each exactly for its own enum member |
| FrontendModel.MissingStatusIsDraft | frontend/src/app/models/message.ts:34 | data without a status, or with the empty one, gives a draft |
| FrontendStore.WithStatus | frontend/src/app/chatbot/services/message.ts:51-56 | each listed message with the id gets the status, every other is unchanged, and the order and length are kept |
| FrontendStore.WithStatusChangesOnlyStatus | frontend/src/app/chatbot/services/message.ts:51-56 | only the matched messages change, only in their status, and each then reports the new status |
| FrontendStore.WithStatusIdempotent | frontend/src/app/chatbot/services/message.ts:48-59 | setting the same status twice is setting it once |
| FrontendStore.Models | frontend/src/app/chatbot/services/message.ts:26 | one model per response entry, in response order |
| FrontendStore.MessageStore.constructor | frontend/src/app/chatbot/services/message.ts:12-16 | an empty list that is not loading |
| FrontendStore.MessageStore.BeginLoad | frontend/src/app/chatbot/services/message.ts:21 | the loading flag is flipped, not set, and the list is unchanged |
| FrontendStore.MessageStore.CompleteLoad | frontend/src/app/chatbot/services/message.ts:25-29 | the list is replaced by the response's models and the flag is flipped again |
| FrontendStore.MessageStore.AddMessageLocally | frontend/src/app/chatbot/services/message.ts:44-46 | the new message comes first, followed by the old list |
| FrontendStore.MessageStore.UpdateMessageStatus | frontend/src/app/chatbot/services/message.ts:48-59 | nothing changes for a missing id or the id 0; otherwise every listed message with that id gets the status |
| FrontendStore.MessageStore.ClearMessages | frontend/src/app/chatbot/services/message.ts:61-63 | the list is emptied and the flag kept |
| FrontendStore.SingleLoad | frontend/src/app/chatbot/services/message.ts:20-31 | one load reads as loading while the request is out and not loading afterwards, and the list is the response |
| FrontendStore.OverlappingLoads | frontend/src/app/chatbot/services/message.ts:20-31 | two overlapping loads read as not loading while both are out and as loading after the first response; the list ends as the second response |
| FrontendView.LabelsDistinct | frontend/src/app/chatbot/components/message/message.ts:16-22 | different statuses are shown with different labels |
| FrontendView.Label | frontend/src/app/chatbot/components/message/message.ts:16-22 | definition: the label table; `LabelsDistinct` states that it is one-to-one |
| FrontendView.LabelOf | frontend/src/app/chatbot/components/message/message.ts:15-24 | the label is the table entry for a known status, and `undefined` for any other status the app produces (inherited keys of the object literal, such as `constructor`, are not modelled) |
| FrontendView.PendingLabel | frontend/src/app/chatbot/components/message/message.ts:15-24 | a message reads `Sending...` exactly when it is pending |
| FrontendView.MissingStatusLabel | frontend/src/app/chatbot/components/message/message.ts:15-24 | a model built without a status reads `Draft` |
| FrontendView.FloorHours | frontend/src/app/chatbot/components/message/message.ts:30-35 | flooring the minutes and then the hours floors the hours |
| FrontendView.FormatTimestamp | frontend/src/app/chatbot/components/message/message.ts:26-39 | `Just now` under a minute (and for the future); whole minutes under an hour; whole hours under a day; the locale date from a day on and for an unreadable timestamp |
| FrontendView.MinutesReadBack | frontend/src/app/chatbot/components/message/message.ts:30-33 | the text before `m ago` reads back as the whole minutes elapsed, from 1 to 59 |
| FrontendView.HoursReadBack | frontend/src/app/chatbot/components/message/message.ts:35-36 | the text before `h ago` reads back as the whole hours elapsed, from 1 to 23 |
| Text.Lower | backend/src/Chatbot/Plugin/AbstractChatbotPlugin.php:81 | `mb_strtolower` keeps the length and maps each character to its lower case |
| Text.Trim | backend/src/Chatbot/Plugin/AbstractChatbotPlugin.php:81 | definition: whitespace cut from both ends; its meaning is stated by `TrimShape` and `TrimIdempotent` |
| Text.Contains | backend/src/Chatbot/Plugin/AbstractChatbotPlugin.php:89 | definition: PHP 8 `str_contains`, the needle occurring at some offset; `ContainsInContext` and `FirstCharAbsent` state when it holds and when not |
| Text.UcWords | backend/src/Chatbot/Plugin/AbstractChatbotPlugin.php:76 | definition: `ucwords` upper-cases the first character and each one after a delimiter; `UcWordsOnlyChangesCase` and `UcWordsSpace` state its meaning |
| Text.TrimShape | backend/src/Chatbot/Plugin/AbstractChatbotPlugin.php:81 | `trim` leaves no whitespace at either end and returns a contiguous part of its input |
| Text.TrimIdempotent | backend/src/Chatbot/Plugin/AbstractChatbotPlugin.php:81 | trimming twice is trimming once |
| Text.TrimLowerCommute | backend/src/Chatbot/Plugin/AbstractChatbotPlugin.php:81 | trimming and lower-casing commute |
| Text.FirstCharAbsent | backend/src/Chatbot/Plugin/AbstractChatbotPlugin.php:89 | `str_contains` is false for a needle whose first character does not occur |
| Text.ContainsInContext | backend/src/Chatbot/Plugin/AbstractChatbotPlugin.php:89 | `str_contains` finds a string inside any string around it |
| Text.ReplaceChar | backend/src/Chatbot/Plugin/AbstractChatbotPlugin.php:76 | `str_replace` of one character replaces exactly its occurrences |
| Text.ReplaceCharAppend | backend/src/Chatbot/Plugin/AbstractChatbotPlugin.php:76 | `str_replace` of one character works piece by piece |
| Text.UcWordsOnlyChangesCase | backend/src/Chatbot/Plugin/AbstractChatbotPlugin.php:76 | `ucwords` changes case only |
| Text.UcWordsSpace | backend/src/Chatbot/Plugin/AbstractChatbotPlugin.php:76 | `ucwords` works word by word across a space |
| Text.NatToString | frontend/src/app/chatbot/components/message/message.ts:33 | a whole number's decimal text is non-empty, all digits, and has no leading zero |
| Text.NatToStringRoundTrip | frontend/src/app/chatbot/components/message/message.ts:33 | reading a number's decimal text back gives the number |
| Text.NatToStringInjective | frontend/src/app/chatbot/components/message/message.ts:36 | distinct numbers have distinct decimal texts |

## Findings

| source | as written | input that shows it | evidently intended | confidence | as-written member | corrected member |
|---|---|---|---|---|---|---|
| backend/src/Chatbot/Plugin/GenericChatbotPlugin.php:15-20 | `GenericChatbotPlugin` and `DateTimePlugin` (backend/src/Chatbot/Plugin/DateTimePlugin.php:16-21) declare constructors that take no user repository and do not call the parent's, so `userRepository` is never set. `getBotUser` reads it at backend/src/Chatbot/Plugin/AbstractChatbotPlugin.php:50 and raises an Error, so the reply is never saved. The manager logs the error and then its warning; only `TimePlugin` ever replies | the message `hello`, with a user, dispatched through the three registered plugins | every plugin built with both repositories, as the abstract constructor takes them and the tests construct the plugin (backend/tests/Unit/Chatbot/Plugin/GenericChatbotPluginTest.php:45-49, :159-187), so a supporting plugin saves its reply | high; not executed | PluginWiring.GreetingAsBuilt | PluginWiring.GreetingAnswered |

## Left out

- HTTP, the controllers, authentication, tokens and password hashing are not part of this model. `sendMessage` in the store is its HTTP post followed by a load, and only the load is modelled.
- Logging is a trace of the manager's events. The exception trace string, the message texts and the plugins' own info lines (the reply created, the bot user created) are left out.
- The clock and the locale are parameters: the time and date texts of the date/time plugins, the current time `MessageModel` uses for a missing timestamp, and the difference in milliseconds and `toLocaleDateString` for `formatTimestamp`.
- Dtos.EmailValid: the `Email` constraint's address check is a parameter, because Symfony's email validator is not part of this model.
- Dtos.TypeError: the text is an approximation of PHP's TypeError message for a non-string value.
- Entities.Message.ToArray: the `created_at` and `updated_at` entries are left out, because the timestamps come from the Doctrine extension, which is not part of this model.
- The `User` entity is a record of the four fields the chat code sets. Its own setters and tests are not modelled.
- The repositories are modelled by what their callers see: the saves they record, the id a flush generates and the rows their queries return. Doctrine's unit of work, the database and the ordering the query builder asks for are not modelled; a new message is put at the head of the rows, which assumes that the generated id exceeds every stored one.
- Repositories.MessageRepository.Save: a save without flush only records the call, because the moment an AUTO id is generated before a flush depends on the database, whose configuration is not part of this model; every caller in the core saves with flush. `UserRepository.php` is not part of this model, and its `findByEmail` returns the first stored user with the email.
- FrontendStore.MessageStore.UpdateMessageStatus: the source sets `status` on the model objects themselves, shared with anyone holding them; the model replaces the list with updated copies, so that aliasing is not captured.
- `MessageModel` is a value here, so in-place updates of one by other frontend code are not captured.
- Text.Lower: only ASCII letters are case-mapped, and `trim`, `String.prototype.trim` and `ucwords` use their fixed ASCII and Unicode whitespace sets. Full Unicode case mapping is left out.
- PluginManager.ChatbotPluginManager.ProcessMessage: what each plugin's `supports` and `process` do is passed in as functions. The way the plugins are collected from the service container (`iterator_to_array` on the tagged iterator) is not modelled.
- ChatbotPlugins.ChatbotPlugin.constructor: the constructor takes both repositories, as the abstract class does. The two concrete constructors that leave the user repository unset are modelled at the level of outcomes in `PluginWiring` (see Findings), and not in the class.
- The Angular components other than the message component are left out. This includes the `setTimeout`-driven status changes in the message form, as well as routing, guards and interceptors.
