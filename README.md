# SuperCHATBOT (Medina Group) — a Dafny model

SuperCHATBOT is a multi-tenant chatbot platform. Administrators create chatbots, give them a
name, colour and logo, attach knowledge-base documents, and hand out a public chat link and
QR code. Visitors chat anonymously through that link. Every question and answer is stored as a
conversation row, and an open session per (user, chatbot) pair signals that the visitor is
still chatting. The admin dashboard reports trends over a trailing 30-day window and groups
conversations into one thread per (user, chatbot).

This project models the logic of that system and proves properties of it:

- **Backend** (Node/Express over Prisma). The tables are one class, `Store.Database`. Each
  handler is a method that checks its guards in the source's order, writes rows, and returns
  an HTTP status with a body. This covers:
  - `chatbot.controller.js`, `conversation.controller.js`, `document.controller.js` and
    `user.controller.js`;
  - the bearer-token and role middlewares;
  - the chatbot router's upload filter and route order;
  - the `/api` mounts of `server.js`;
  - the in-memory platform logo router, which `server.js` never mounts (see below).
- **Python helpers.** The API-key round robin and both slug migrations, one in Node and one
  in Python.
- **Admin frontend** (React). This covers:
  - the React-Query chatbot cache;
  - the upload dialog;
  - the create and edit dialogs;
  - the list pages with search and paging;
  - the chat history and public chat transcripts;
  - user management and settings;
  - the router, the route guard and the sidebar.

  Each component's state is a class. Its handlers are methods, and the rules they apply are
  functions with lemmas.

Clocks, random ids, the AI endpoint, Cloudinary, bcrypt, jwt, QR encoding, uuid generation,
localStorage reads and every server answer are parameters of the operations that use them.
Strings are `seq<char>`. JavaScript lengths are counted in UTF-16 code units where the source
compares them.

Some behaviours are proved here as they are written, because the code does them:

- The edit dialog validates the instructions but never sends them (`ChatbotModals.InstructionsAreNotSent`).
- The user page's create and password-reset requests reach no backend route (`Accounts.WhereTheRequestsGo`).
- The sidebar's User Management entry leads to NotFound (`Navigation.AdminEntriesLead`).
- Every sidebar entry a sub-administrator sees is behind an ADMIN-only guard (`Navigation.SubAdminEntriesLead`).
- The users router's ADMIN gate also stands in front of change-password (`UserController.UserRoutesAreAdminOnly`).
- An update that omits `isActive` deactivates the chatbot (`ChatbotController.EmptyUpdateDeactivates`).
- Every public fetch of a chatbot creates an anonymous user (`ChatbotController.GetChatbot`).
- The 30-day "sessions" trend can fall (`Stats.SessionsTrendCanFall`).
- `server.js` mounts the auth, chatbots, users, documents and conversations routers under
  `/api` and nothing else, so the platform logo router is unreachable and the settings page's
  request for `/api/platform/logo` lands nowhere (`ApiServer.PlatformLogoIsUnreachable`). The
  `PlatformLogo` module models that router's handlers as written, for a server that mounts it.
- The chatbot router has no DELETE route, so the frontend's `DELETE /api/chatbots/:id` is
  answered by no handler (`ApiServer.ChatbotDeleteIsNotServed`, `ChatbotRoutes.NoDeleteRoute`).
  The success branch of `ChatbotCache.ChatbotStore.DeleteChatbot` is modelled for a server
  that would answer it.

Two facts about the backend's shape:

- The public message endpoint addresses a chatbot by its numeric id, parsed with
  `parseInt`; no backend route looks a chatbot up by its slug.
- The ownership and role checks sit inside the handlers, with their own status codes; only
  the bearer-token and role middlewares stand in front of them.

Each `.dfy` file is one module. `common`, `text`, `utf8`, `store`, `sorting`, `pagination` and
`stats` hold the shared definitions; the other files follow the source's own files.

## Model

| member | source | states |
|---|---|---|
| Auth.BearerToken | WebApp/Backend_Node/src/middlewares/auth.js:9 | the token is the text after `Bearer ` up to the next space |
| Auth.Authenticate | WebApp/Backend_Node/src/middlewares/auth.js:4-21 | 401 "No token provided" exactly when the header is missing, empty or does not start with `Bearer `; success only with the verified payload of that token, and only when its id and role are truthy; every refusal is 401 or 400 |
| Auth.SchemeIsCaseSensitive | WebApp/Backend_Node/src/middlewares/auth.js:5 | `bearer x` and a bare `Bearer` are refused before any verification |
| Auth.AuthMiddleware | WebApp/Backend_Node/src/middlewares/auth.js:3-22 | either a status is set and next is not called, or req.user becomes the payload and next is called exactly once |
| Auth.RequireRole | WebApp/Backend_Node/src/middlewares/roles.js:1-14 | 401 exactly when there is no user or no role; ADMIN admits only ADMIN, SUB_ADMIN admits ADMIN and SUB_ADMIN, any other requirement admits any role; every refusal is 401 or 403 |
| Auth.AdminPassesEverything | WebApp/Backend_Node/src/middlewares/roles.js:3-12 | an ADMIN principal passes every requirement |
| Auth.RequirementsAreNested | WebApp/Backend_Node/src/middlewares/roles.js:6-12 | whoever passes ADMIN passes SUB_ADMIN, and whoever passes SUB_ADMIN passes any other requirement |
| ChatbotRoutes.SanitizedUploadName | WebApp/Backend_Node/src/routes/chatbot.routes.js:15-17 | the stored name keeps the length of the original name; every character outside `[a-zA-Z0-9.-]` becomes `_`, and the whitespace pass then has nothing left to change |
| ChatbotRoutes.StoredFileName | WebApp/Backend_Node/src/routes/chatbot.routes.js:18 | the file name holds only safe characters and `_`, and the text before its first `-` is the timestamp |
| ChatbotRoutes.CheckFrom | WebApp/Backend_Node/src/routes/chatbot.routes.js:26-36 | no error is reported exactly when multer accepts every file from that position on |
| ChatbotRoutes.UploadsAccepted | WebApp/Backend_Node/src/routes/chatbot.routes.js:24-46 | a request passes multer exactly when every file has one of the four MIME types, is at most 5 MB, and its field is declared and within its maxCount (both directions) |
| ChatbotRoutes.DispatchFrom | WebApp/Backend_Node/src/routes/chatbot.routes.js:40-75 | the chosen route matches the request and no route registered earlier matches it; no route is chosen only when none matches |
| ChatbotRoutes.StaticPathsWin | WebApp/Backend_Node/src/routes/chatbot.routes.js:59-63 | `GET /user-stats`, `/my` and `/qr-codes` reach their own authenticated handlers, never getChatbot |
| ChatbotRoutes.OtherSegmentsReachGetChatbot | WebApp/Backend_Node/src/routes/chatbot.routes.js:63 | any other non-empty single segment is served by getChatbot without authentication |
| ChatbotRoutes.NoDeleteRoute | WebApp/Backend_Node/src/routes/chatbot.routes.js:40-75 | no DELETE request, on any path, is dispatched to a chatbot handler |
| ApiServer.MountFrom | WebApp/Backend_Node/src/server.js:36-40 | the router found is mounted under that segment; nothing is found exactly when no mount from that position has the segment |
| ApiServer.Land | WebApp/Backend_Node/src/server.js:32-44 | a path under `uploads` reaches the static directory with the file's path, the empty path reaches the root greeting, and a path reaches a router exactly when it starts with `api` and a mounted segment; the router reached is the one mounted under that segment, and it sees the rest of the path |
| ApiServer.PlatformLogoIsUnreachable | WebApp/frontend/src/contexts/PlatformLogoContext.tsx:23 | `/api/platform/logo` reaches no router, since `platform` is not mounted |
| ApiServer.ChatbotDeleteIsNotServed | WebApp/frontend/src/contexts/ChatbotContext.tsx:249 | the frontend's delete request reaches the chatbots router with the id alone, and that router has no route for it |
| ChatbotRoutes.PublicHandlers | WebApp/Backend_Node/src/routes/chatbot.routes.js:63-74 | only getChatbot, sendMessage, getConversations and endSession can be reached without the auth middleware |
| PlatformLogo.AnySchemePasses | WebApp/Backend_Node/src/routes/platform.routes.js:21-25 | any first word followed by a space and a non-empty token passes the local guard: neither the scheme nor the token is checked |
| PlatformLogo.NoSecondFieldFails | WebApp/Backend_Node/src/routes/platform.routes.js:22-23 | a missing header, `Bearer` and `Bearer ` are refused |
| PlatformLogo.LogoStore.constructor | WebApp/Backend_Node/src/routes/platform.routes.js:17-18 | the module starts with no logo URL and no public id |
| PlatformLogo.LogoStore.Post | WebApp/Backend_Node/src/routes/platform.routes.js:29-56 | 401 without a token, 400 without a file, next(err) when the upload fails; success exactly when all three hold, and then both variables hold the upload's URL and id and the reply carries the URL; nothing changes otherwise |
| PlatformLogo.LogoStore.Get | WebApp/Backend_Node/src/routes/platform.routes.js:59-61 | 401 without a token, otherwise 200 with the current URL |
| PlatformLogo.LogoStore.Delete | WebApp/Backend_Node/src/routes/platform.routes.js:64-76 | 401 without a token; when URL or id is unset the reply is a success and nothing changes; otherwise both are cleared if the destroy succeeds, and the error is forwarded with nothing changed if it fails |
| SlugMigrationNode.MigrateSlugs | WebApp/Backend_Node/scripts/migrateSlugs.js:6-27 | every bot visited before a failing update keeps a truthy slug or gets its uuid, the others are untouched; the count and the log cover exactly the slugless bots visited; after a full run every slug is present and ids are kept; every log line prints the old, falsy slug; the client is always disconnected |
| SlugMigrationPython.SanitizeSlug | chatbot_service/scripts/migrate_slugs.py:6-13 | None or '' give None; any other slug comes back with its lone surrogates replaced, which is what the replacing UTF-8 round trip does |
| SlugMigrationPython.SanitizeIdempotent | chatbot_service/scripts/migrate_slugs.py:6-13 | sanitising twice is sanitising once |
| SlugMigrationPython.SanitizeKeepsValidText | chatbot_service/scripts/migrate_slugs.py:11 | a non-empty slug without lone surrogates is kept unchanged |
| SlugMigrationPython.CommitPoint | chatbot_service/scripts/migrate_slugs.py:22-25 | the last commit covers the bots up to the last empty slug seen, and every bot after that point had a truthy slug |
| SlugMigrationPython.Visit | chatbot_service/scripts/migrate_slugs.py:21-23 | the bot leaves with its slug sanitised, or with the uuid when the sanitised slug is falsy, which happens exactly when the loaded slug was falsy |
| SlugMigrationPython.LoopBody | chatbot_service/scripts/migrate_slugs.py:20-26 | one pass advances session, database, count and log to their values after bot i; when the commit raises, the database is left as it was |
| SlugMigrationPython.CommitLoop | chatbot_service/scripts/migrate_slugs.py:18-28 | the run fails exactly when the failing commit belongs to an empty slug; the database then holds the session as of the last successful commit; after a full run the count and the log list every empty slug |
| SlugMigrationPython.MigrateSlugs | chatbot_service/scripts/migrate_slugs.py:15-33 | the rollback keeps only what was committed, and the session is always closed |
| SlugMigrationPython.EverySlugFilled | chatbot_service/scripts/migrate_slugs.py:20-25 | after a successful run every committed bot has a non-empty slug |
| KeyRotation.StrippedKeys | chatbot_service/key_manager.py:6 | the keys are non-empty, already stripped, and never more than the lines of the file |
| KeyRotation.LoadApiKeys | chatbot_service/key_manager.py:4-9 | ValueError exactly when every line strips to nothing; otherwise the non-empty list of stripped keys in file order |
| KeyRotation.NoKeysIffBlank | chatbot_service/key_manager.py:6-8 | no key is found if and only if every line is blank |
| KeyRotation.StripIdempotent | chatbot_service/key_manager.py:6 | stripping a stripped line changes nothing |
| KeyRotation.ReloadIsIdentity | chatbot_service/key_manager.py:6 | a file holding the loaded keys one per line loads to the same keys |
| KeyRotation.KeyAt | chatbot_service/key_manager.py:9 | every key handed out is one of the loaded keys |
| KeyRotation.Rotation | chatbot_service/key_manager.py:9 | m calls from call k hand out the keys at positions k, k+1, … modulo the key count |
| KeyRotation.FullRoundIsPermutation | chatbot_service/key_manager.py:9 | any |keys| consecutive calls hand out each key exactly as often as it is listed, whatever the starting call |
| KeyRotation.KeyCycle.constructor | chatbot_service/key_manager.py:12 | the cycle starts at the first key with no key taken |
| KeyRotation.KeyCycle.GetApiKey | chatbot_service/key_manager.py:14-16 | the key returned is the next in round-robin order, and one more key has been taken |
| KeyRotation.KeyCycle.TakeKeys | chatbot_service/key_manager.py:14-16 | m calls in a row return the rotation starting at the current position and advance it by m |
| StorageNames.FolderName | WebApp/Backend_Node/src/controllers/chatbot.controller.js:183-184 | the folder stem has the name's length and holds only `a-z`, `0-9` and `_`: each character is the lowercased character when that is a letter or digit, and `_` otherwise |
| StorageNames.FolderNameIdempotent | WebApp/Backend_Node/src/controllers/chatbot.controller.js:183-184 | a folder stem is its own folder stem |
| StorageNames.LastIndexOf | WebApp/Backend_Node/src/controllers/document.controller.js:94 | the index found holds the character and no later position does; None only when the character is absent |
| StorageNames.Extname | WebApp/Backend_Node/src/controllers/document.controller.js:94 | the extension is empty, or a proper suffix of the base name that starts with its only `.` |
| StorageNames.FileType | WebApp/Backend_Node/src/controllers/document.controller.js:94 | the file type never contains a `.` |
| StorageNames.FileTypeOfName | WebApp/Backend_Node/src/controllers/chatbot.controller.js:101 | `stem.ext` with a non-empty stem has the lowercased `ext` as its type |
| StorageNames.FileTypeWithoutDot | WebApp/Backend_Node/src/controllers/document.controller.js:174 | a name without a dot has the empty type |
| StorageNames.PublicId | WebApp/Backend_Node/src/controllers/document.controller.js:159 | the public id contains neither `/` nor `.` |
| StorageNames.PublicIdOfUrl | WebApp/Backend_Node/src/controllers/document.controller.js:159 | the URL `<folder>/<id>.<ext>` yields `<id>`, so the id a stored URL was built from is recovered |
| Stats.TrendOf | WebApp/Backend_Node/src/controllers/chatbot.controller.js:872 | with no earlier count the trend is 0.0; otherwise it is the change as a percentage of the earlier count; it is shown rising exactly when the count grew, and for a non-zero baseline its sign is the sign of the change |
| Stats.ZeroBaseline | WebApp/Backend_Node/src/controllers/chatbot.controller.js:945 | from a zero baseline the trend is 0.0 whatever the current count, and it is marked rising when anything was counted |
| Stats.TrendExample | WebApp/Backend_Node/src/controllers/chatbot.controller.js:872 | 25 messages of which 10 are older than 30 days is a 150 percent rise |
| Stats.ChatbotStatsBounds | WebApp/Backend_Node/src/controllers/chatbot.controller.js:843-914 | for one chatbot the older messages are among all messages, so the message trend never falls; anonymous users are among its users, and there are no more users than messages |
| Stats.UserStatsBounds | WebApp/Backend_Node/src/controllers/chatbot.controller.js:916-994 | over the principal's chatbots (all of them for ADMIN) the message and scan trends never fall, and the two session windows together count at most the open sessions |
| Stats.CountDisjoint | WebApp/Backend_Node/src/controllers/chatbot.controller.js:950-965 | two filters that never match the same row, both inside a third, together count at most what the third counts |
| Stats.SessionsTrendCanFall | WebApp/Backend_Node/src/controllers/chatbot.controller.js:950-966 | one open session started two days ago counts only in the earlier window, so the sessions trend is -100 percent |
| Store.First | WebApp/Backend_Node/src/controllers/chatbot.controller.js:687-692 | findFirst: the row found satisfies the filter and no earlier row does; nothing is found exactly when no row satisfies it |
| Store.Where | WebApp/Backend_Node/src/controllers/chatbot.controller.js:764-770 | findMany: the rows returned are exactly the rows satisfying the filter, never more than the table |
| Store.Without | WebApp/Backend_Node/src/controllers/conversation.controller.js:161-163 | deleteMany: the rows kept are exactly the rows not satisfying the filter, and kept plus deleted make the table |
| Store.FindUser | WebApp/Backend_Node/src/controllers/chatbot.controller.js:681 | findUnique on User: the row found has that id; nothing is found exactly when no row has it |
| Store.FindChatbot | WebApp/Backend_Node/src/controllers/chatbot.controller.js:536 | findUnique on Chatbot: the row found has that id; nothing is found exactly when no row has it |
| Store.FindActiveChatbot | WebApp/Backend_Node/src/controllers/chatbot.controller.js:653-656 | the chatbot found has that id and is active; nothing is found exactly when no such row exists |
| Store.WithAnonymousUser | WebApp/Backend_Node/src/controllers/chatbot.controller.js:328-334 | creating an anonymous visitor appends exactly one user row, under the next user id, and keeps every earlier row; the new row is anonymous, has role USER and the name `Anonymous_<now>`; the id counter advances by one and no other table changes |
| Store.NewVisitorIsFound | WebApp/Backend_Node/src/controllers/chatbot.controller.js:328-334 | when every existing id is below the counter, a lookup of the new id finds exactly the new anonymous row |
| Store.EnsureOpen | WebApp/Backend_Node/src/controllers/chatbot.controller.js:686-701 | afterwards the pair has an open session; the table is unchanged when it already had one, and otherwise one open session starting now is appended |
| Store.EnsureOpenIdempotent | WebApp/Backend_Node/src/controllers/chatbot.controller.js:686-701 | a second message on the same pair opens nothing new |
| Store.EnsureOpenCreatesOne | WebApp/Backend_Node/src/controllers/chatbot.controller.js:693-700 | a pair with no open session has exactly one afterwards |
| Store.Close | WebApp/Backend_Node/src/controllers/chatbot.controller.js:1018-1021 | the session at that position gets the end time and the table keeps its length |
| Store.CloseCountsDown | WebApp/Backend_Node/src/controllers/chatbot.controller.js:1005-1021 | closing a pair's first open session leaves it exactly one open session fewer |
| Store.CloseTwiceFails | WebApp/Backend_Node/src/controllers/chatbot.controller.js:1005-1015 | with a single open session, after endSession the pair has none, so a repeated endSession finds nothing to close |
| Store.Database.constructor | WebApp/Backend_Node/src/controllers/chatbot.controller.js:7 | a fresh database has no rows and every id sequence at 1 |
| Sorting.SortBy | WebApp/Backend_Node/src/controllers/chatbot.controller.js:831-833 | `orderBy: { createdAt: 'asc' }` and the stable `Array.prototype.sort`: the result is ordered by the key and is a permutation of the input |
| Sorting.SortStable | WebApp/frontend/src/components/chat-history/ConversationsList.tsx:66-69 | the sort is stable: for every key, the elements carrying it keep their original order |
| Sorting.SortAppendMax | WebApp/frontend/src/components/chat-history/ConversationsList.tsx:66-69 | an element whose key is at least every other key goes last and leaves the others' order alone |
| Sorting.InsertSorted | WebApp/frontend/src/components/chat-history/ConversationsList.tsx:69 | inserting into a sorted sequence keeps it sorted |
| Sorting.InsertCount | WebApp/frontend/src/components/chat-history/ConversationsList.tsx:69 | inserting adds exactly that element |
| Pagination.PageCount | WebApp/frontend/src/pages/Dashboard.tsx:77 | `Math.ceil(n / perPage)`: no pages exactly when there are no items; the pages hold every item and the last one is not empty |
| Pagination.PageContents | WebApp/frontend/src/pages/Dashboard.tsx:78-79 | a page in range shows the items from `(p-1)*perPage` up to `p*perPage` or the end: never empty and never more than perPage |
| Pagination.PageOutOfRange | WebApp/frontend/src/pages/Chatbots.tsx:26-27 | page 0 and every page past the last show nothing |
| Pagination.PagesCoverList | WebApp/frontend/src/components/knowledge-base/DocumentsList.tsx:85-87 | the pages laid end to end are the whole list, in order, each item once |
| Pagination.FirstPagesPrefix | WebApp/frontend/src/components/knowledge-base/DocumentsList.tsx:86-87 | the first k pages together are the list's prefix up to `k*perPage` |
| Pagination.NavigationStaysInRange | WebApp/frontend/src/components/knowledge-base/DocumentsList.tsx:337-363 | from a page in range, an enabled Previous or Next button leads to a page in range |
| Utf8.ReplaceSurrogates | chatbot_service/scripts/migrate_slugs.py:11 | the text keeps its length, and each code point is kept unless it is a lone surrogate |
| Utf8.DecodeFirstOfEncoded | chatbot_service/scripts/migrate_slugs.py:11 | decoding the bytes of one encoded code point reads back its replacement and consumes exactly those bytes |
| Utf8.RoundTrip | chatbot_service/scripts/migrate_slugs.py:11 | `encode('utf-8', errors='replace')` followed by `decode('utf-8')` never raises and gives the text with its lone surrogates replaced |
| Utf8.RoundTripIdentity | chatbot_service/scripts/migrate_slugs.py:11 | text without lone surrogates survives the round trip unchanged |
| Text.ToLowerIdempotent | WebApp/Backend_Node/src/controllers/chatbot.controller.js:183 | lowercasing twice is lowercasing once |
| Text.JsTrimEmptyIffBlank | WebApp/frontend/src/pages/PublicChat.tsx:152 | `!s.trim()` holds exactly when every character of s is whitespace |
| Text.CollapseSpaces | WebApp/Backend_Node/src/routes/chatbot.routes.js:17 | the `/\s+/g` replace leaves no whitespace and never lengthens the string |
| Text.CollapseSpacesNoop | WebApp/Backend_Node/src/routes/chatbot.routes.js:16-17 | a string without whitespace is left unchanged by the `\s+` replace |
| Text.TakeUntil | WebApp/Backend_Node/src/controllers/document.controller.js:159 | the text before the first separator: a prefix that holds no separator and is followed by one unless it is the whole string |
| Text.Split | WebApp/Backend_Node/src/middlewares/auth.js:9 | split yields at least one field and no field holds the separator |
| Text.JoinSplit | WebApp/Backend_Node/src/middlewares/auth.js:9 | joining the fields of a split gives the original string back |
| Text.LastFieldIsSuffix | WebApp/Backend_Node/src/controllers/document.controller.js:159 | `split(sep).pop()` is a suffix of the string without the separator |
| Text.IntRoundTrip | WebApp/Backend_Node/src/controllers/user.controller.js:17 | `parseInt(String(i), 10)` and `parseInt(String(i))` give back i for every integer |
| Text.DecimalInjective | WebApp/Backend_Node/src/controllers/conversation.controller.js:144-145 | two different numbers never print alike |
| Text.WordIsNaN | WebApp/Backend_Node/src/controllers/document.controller.js:10 | a string starting with a lowercase letter parses to NaN |
| Text.ParseIntValue | WebApp/Backend_Node/src/controllers/conversation.controller.js:21-22 | parseInt of a body field: NaN for a missing field or a boolean, the number itself for a number, parseInt of the text for a string |
| Text.JsSlice | WebApp/frontend/src/pages/Dashboard.tsx:79 | slice never returns more than the sequence, and within bounds it is the ordinary subsequence |
| Text.JsLength | WebApp/frontend/src/pages/UserManagement.tsx:39 | `.length` counts UTF-16 code units: at least the character count and at most twice it |
| Text.JsLengthAppend | WebApp/frontend/src/pages/UserManagement.tsx:39 | the length of a concatenation is the sum of the lengths |
| ChatbotController.RouteId | WebApp/Backend_Node/src/controllers/chatbot.controller.js:648-651 | an id is kept exactly when parseInt reads a number other than 0; NaN and 0 are refused |
| ChatbotController.ViewOf | WebApp/Backend_Node/src/controllers/chatbot.controller.js:347-357 | the view keeps id, logo and document count; the colour is never empty: the stored colour when it is truthy, else the default |
| ChatbotController.AnswerFor | WebApp/Backend_Node/src/controllers/chatbot.controller.js:705-724 | the stored answer is never empty: the AI's reply when it is non-empty, "No response from AI." for an empty reply, the apology when the call failed |
| ChatbotController.Resolve | WebApp/Backend_Node/src/controllers/chatbot.controller.js:665-684 | a new anonymous user is created exactly when neither the body nor the principal names a user, and gets the next user id; otherwise the named user must exist (404 when it does not), and a body userId that is not a number makes the query throw |
| ChatbotController.Exchange | WebApp/Backend_Node/src/controllers/chatbot.controller.js:686-734 | one conversation is appended with the question and answer, the pair is left with an open session, and the other tables are unchanged |
| ChatbotController.SendMessage | WebApp/Backend_Node/src/controllers/chatbot.controller.js:646-747 | 400 for a bad id, 404 for a missing or inactive chatbot, 400 for missing content, next(err) for a non-numeric userId, 404 for an unknown user; any rejection leaves the database unchanged; on success the anonymous user (if any) and the exchange are written and the answer is returned |
| ChatbotController.ExchangeAppendsOne | WebApp/Backend_Node/src/controllers/chatbot.controller.js:686-734 | each successful message adds exactly one conversation for the pair, and the pair then has at least one open session, exactly one if it had none |
| ChatbotController.History | WebApp/Backend_Node/src/controllers/chatbot.controller.js:826-834 | the transcript is ordered by creation time and holds exactly the pair's conversations |
| ChatbotController.HistoryAppends | WebApp/Backend_Node/src/controllers/chatbot.controller.js:826-834 | a message stamped no earlier than the others extends the pair's transcript at the end and leaves the earlier entries in place |
| ChatbotController.GetConversations | WebApp/Backend_Node/src/controllers/chatbot.controller.js:811-841 | 400 when either id is NaN or 0, 404 for a missing or inactive chatbot, otherwise the pair's ordered transcript |
| ChatbotController.Closed | WebApp/Backend_Node/src/controllers/chatbot.controller.js:1005-1021 | None exactly when the pair has no open session; otherwise the table keeps its length and the pair has one open session fewer |
| ChatbotController.ClosedTouchesOne | WebApp/Backend_Node/src/controllers/chatbot.controller.js:1018-1021 | closing changes one row only: an open session of the pair gets the end time, and every other row is kept |
| ChatbotController.EndSession | WebApp/Backend_Node/src/controllers/chatbot.controller.js:996-1027 | 400 when either body field is falsy, next(err) when one is not numeric, 404 when no session is open, otherwise the pair's first open session is closed; nothing is written on a rejection |
| ChatbotController.WithScan | WebApp/Backend_Node/src/controllers/chatbot.controller.js:339-345 | exactly one scan row is appended, for that chatbot, user and time |
| ChatbotController.GetChatbot | WebApp/Backend_Node/src/controllers/chatbot.controller.js:304-365 | 400 for a bad id, 404 for a missing or inactive chatbot; success exactly otherwise, and it then logs one scan, first creating an anonymous user when there is no principal, and returns the view with the document count |
| ChatbotController.NewDocuments | WebApp/Backend_Node/src/controllers/chatbot.controller.js:81-111 | one row per uploaded file, in order, with consecutive ids, the chatbot's id, the original name, the file type, the size and the uploaded URL |
| ChatbotController.WithDocuments | WebApp/Backend_Node/src/controllers/chatbot.controller.js:114-121 | the chatbot ends with exactly as many more documents as files were uploaded |
| ChatbotController.AllOfChatbot | WebApp/Backend_Node/src/controllers/chatbot.controller.js:120 | rows that all name the chatbot are all found by its document filter |
| ChatbotController.NewChatbot | WebApp/Backend_Node/src/controllers/chatbot.controller.js:58-67 | the new row takes the next chatbot id and the given name and logo, is active, is owned by the principal and has no QR code yet |
| ChatbotController.Inserted | WebApp/Backend_Node/src/controllers/chatbot.controller.js:58-67 | inserting appends the chatbot and leaves users, documents and conversations alone |
| ChatbotController.FreshChatbotHasNoDocuments | WebApp/Backend_Node/src/controllers/chatbot.controller.js:148 | when every document refers to an id already handed out, a new chatbot has no documents |
| ChatbotController.CreateChatbot | WebApp/Backend_Node/src/controllers/chatbot.controller.js:22-154 | 400 without a name; a failed logo upload writes nothing; a failed document upload leaves the new chatbot inserted without documents or QR code; otherwise the chatbot gets its QR code and its documents, and 201 returns its view |
| ChatbotController.NewLogoUrl | WebApp/Backend_Node/src/controllers/chatbot.controller.js:188-205 | the logo is the uploaded file's URL, else the body's logoUrl when truthy, else the stored one |
| ChatbotController.HasChangesIffDiffers | WebApp/Backend_Node/src/controllers/chatbot.controller.js:252-258 | hasChanges holds exactly when the merged row differs from the stored one or documents were added |
| ChatbotController.IsActiveIgnoresStoredValue | WebApp/Backend_Node/src/controllers/chatbot.controller.js:177-250 | the new isActive is the body's flag alone: the stored-value fallback is dead, so omitting isActive deactivates the chatbot |
| ChatbotController.EmptyUpdateDeactivates | WebApp/Backend_Node/src/controllers/chatbot.controller.js:244-250 | an empty body with no files keeps every field except isActive, which becomes false |
| ChatbotController.UpdateChatbot | WebApp/Backend_Node/src/controllers/chatbot.controller.js:156-302 | 400 for a bad id, 401 without a principal, 404 for a missing chatbot, 403 for a non-owner who is not ADMIN, 500 when an upload fails, all without writes; on success the merged row and the new documents are written and hasChanges is reported |
| ChatbotController.GetChatbotStats | WebApp/Backend_Node/src/controllers/chatbot.controller.js:843-914 | 400 for a bad id, 404 for a missing chatbot, 403 for a non-owner who is not ADMIN; otherwise the chatbot's statistics |
| ChatbotController.GetUserStats | WebApp/Backend_Node/src/controllers/chatbot.controller.js:916-994 | the statistics over the principal's chatbots, all of them for ADMIN |
| ConversationController.FractionPassesIsNaN | WebApp/Backend_Node/src/controllers/conversation.controller.js:140-145 | ".5" passes the isNaN guard, yet parseInt reads it as NaN |
| ConversationController.TrailingTextFailsIsNaN | WebApp/Backend_Node/src/controllers/conversation.controller.js:140-145 | "12abc" is refused by the isNaN guard, although parseInt would read 12 |
| ConversationController.ReadsTwelve | WebApp/Backend_Node/src/controllers/conversation.controller.js:144 | parseInt("12abc", 10) is 12 |
| ConversationController.TrimmedAlready | WebApp/Backend_Node/src/controllers/conversation.controller.js:140 | a string without whitespace at either end is its own trim |
| ConversationController.QueryFilter | WebApp/Backend_Node/src/controllers/conversation.controller.js:21-22 | no filter exactly when the query value is missing or empty; a filter id is what parseInt reads from the value |
| ConversationController.Groups | WebApp/Backend_Node/src/controllers/conversation.controller.js:35-40 | groupBy userId and chatbotId: the pairs are distinct, and a pair is a group exactly when it has a matching row |
| ConversationController.GroupsPartition | WebApp/Backend_Node/src/controllers/conversation.controller.js:35-40 | the groups' message counts add up to the number of matching rows |
| ConversationController.CountSumAppend | WebApp/Backend_Node/src/controllers/conversation.controller.js:39 | one more row adds one to the sum when its pair is a group, and nothing otherwise |
| ConversationController.UserLines | WebApp/Backend_Node/src/controllers/conversation.controller.js:82-87 | one user entry per row, in order |
| ConversationController.BotLines | WebApp/Backend_Node/src/controllers/conversation.controller.js:88-95 | one bot entry per answered row, each with a non-empty content, never more than the rows |
| ConversationController.DisplayName | WebApp/Backend_Node/src/controllers/conversation.controller.js:71 | the name shown is never empty: the user's name, or "Anonymous" |
| ConversationController.ThreadOf | WebApp/Backend_Node/src/controllers/conversation.controller.js:44-96 | the thread names its pair, counts exactly the pair's matching rows, has one user entry per row and at most as many bot entries, and is active exactly when the pair has an open session; it carries the user's display name, is anonymous exactly when the user row is, and carries the user's email and the chatbot's name, logo and primary colour from their rows |
| ConversationController.ThreadIsLatest | WebApp/Backend_Node/src/controllers/conversation.controller.js:67-80 | the thread's time is the latest time among the pair's matching rows, and its last message is the question of a row with that time |
| ConversationController.ThreadShape | WebApp/Backend_Node/src/controllers/conversation.controller.js:55-69 | the thread id is userId-chatbotId and its messages are newest first |
| ConversationController.Threads | WebApp/Backend_Node/src/controllers/conversation.controller.js:43-98 | one thread per group, in group order |
| ConversationController.ThreadsCoverRows | WebApp/Backend_Node/src/controllers/conversation.controller.js:35-98 | the threads' message counts add up to the number of matching conversations |
| ConversationController.ThreadCountsAreGroupCounts | WebApp/Backend_Node/src/controllers/conversation.controller.js:79 | when each thread counts its group's rows, the threads' total is the groups' total |
| ConversationController.StatsBounds | WebApp/Backend_Node/src/controllers/conversation.controller.js:100-118 | today's conversations are among the total, and there are no more active users than conversations |
| ConversationController.GetConversations | WebApp/Backend_Node/src/controllers/conversation.controller.js:5-133 | 401 without a principal or with id 0; 500 when a filter id is NaN; otherwise the threads of the conversations that match the role scope, both id filters and the case-insensitive search, and the counters |
| ConversationController.DeleteConversation | WebApp/Backend_Node/src/controllers/conversation.controller.js:135-170 | 400 for an empty or isNaN parameter, next(err) when parseInt still reads NaN, 404 when the pair has no conversations, then 403 unless the caller is ADMIN or that user; only success writes, deleting exactly the pair's rows |
| ConversationController.DeletionRemovesOnlyThePair | WebApp/Backend_Node/src/controllers/conversation.controller.js:161-163 | afterwards the pair has no conversations, every other row is kept, and kept plus deleted make the old table |
| DocumentController.Folder | WebApp/Backend_Node/src/controllers/document.controller.js:154-165 | every document folder lies under `Uploads/` |
| DocumentController.OwnedChatbot | WebApp/Backend_Node/src/controllers/document.controller.js:15-20 | the chatbot is found exactly when a chatbot with that id exists and the principal owns it |
| DocumentController.FindDocument | WebApp/Backend_Node/src/controllers/document.controller.js:138-140 | the row found has that id; nothing is found exactly when no row has it |
| DocumentController.GetDocumentsByChatbot | WebApp/Backend_Node/src/controllers/document.controller.js:8-40 | 400 when parseInt reads NaN (0 passes), 403 when the chatbot is missing or owned by someone else, otherwise exactly the chatbot's documents |
| DocumentController.WithDocument | WebApp/Backend_Node/src/controllers/document.controller.js:98-110 | the new row is appended to the documents |
| DocumentController.AddingCountsOne | WebApp/Backend_Node/src/controllers/document.controller.js:98-110 | adding a row raises its chatbot's document count by one and leaves every other chatbot's count alone |
| DocumentController.UploadDocument | WebApp/Backend_Node/src/controllers/document.controller.js:42-128 | 400 for a falsy or NaN chatbotId, 403 when the principal does not own the chatbot, 400 without a file, 500 when the upload fails, all without writes; on success one row is created and 201 reports the chatbot's count plus one |
| DocumentController.UploadReportsNewCount | WebApp/Backend_Node/src/controllers/document.controller.js:113-123 | the count an upload reports is the chatbot's count after it |
| DocumentController.Replaced | WebApp/Backend_Node/src/controllers/document.controller.js:176-190 | a replaced row keeps its id and its chatbot |
| DocumentController.ReplacingKeepsCounts | WebApp/Backend_Node/src/controllers/document.controller.js:176-190 | replacing a row keeps every chatbot's document count |
| DocumentController.ReplaceDocument | WebApp/Backend_Node/src/controllers/document.controller.js:130-209 | 400 without a file, 500 when the id is NaN, 403 for a missing document or another owner's; the old file is destroyed first, so a failed upload (500) leaves the row pointing at a destroyed file; on success only that row changes |
| DocumentController.DestroysStoredFile | WebApp/Backend_Node/src/controllers/document.controller.js:158-160 | the file destroyed is the one named by the row's URL, in the chatbot's folder |
| DocumentController.DeleteErrorStatus | WebApp/Backend_Node/src/controllers/document.controller.js:251-260 | a message containing "Unauthorized" or "Document not found" gives 403; otherwise P2025 gives 404 and anything else 500 |
| DocumentController.OwnErrorsAreForbidden | WebApp/Backend_Node/src/controllers/document.controller.js:222-227 | both errors the transaction throws itself are answered with 403 |
| DocumentController.RemoveAt | WebApp/Backend_Node/src/controllers/document.controller.js:230-232 | removing a row leaves one row fewer |
| DocumentController.RemovingCountsOne | WebApp/Backend_Node/src/controllers/document.controller.js:230-232 | removing a row lowers its chatbot's document count by one and leaves every other count alone |
| DocumentController.DeleteDocument | WebApp/Backend_Node/src/controllers/document.controller.js:211-261 | 500 for a NaN id or a missing chatbot row, 403 for a missing document or a caller who is neither owner nor ADMIN; 204 exactly when that one row is removed, and nothing is written otherwise |
| DocumentController.DownloadDocument | WebApp/Backend_Node/src/controllers/document.controller.js:263-281 | 500 for a NaN id, 403 for a missing document or a caller who does not own its chatbot (no ADMIN exception); otherwise the URL and the chatbot's document count, which is at least one |
| UserController.UserIndex | WebApp/Backend_Node/src/controllers/user.controller.js:47-48 | the position addressed holds the row with that id; none exactly when no row has it |
| UserController.UserRoutesAreAdminOnly | WebApp/Backend_Node/src/routes/user.routes.js:7-15 | the router-level requireRole('ADMIN') admits exactly ADMIN principals, so SUB_ADMIN and USER get 403 even on change-password |
| UserController.GetUserById | WebApp/Backend_Node/src/controllers/user.controller.js:15-25 | next(err) for a NaN id, 404 exactly when no user has the id, otherwise 200 with that user's public columns and never the password |
| UserController.OwnEmailIsFree | WebApp/Backend_Node/src/controllers/user.controller.js:39-44 | a user whose email no other row has is never refused for keeping it |
| UserController.Edited | WebApp/Backend_Node/src/controllers/user.controller.js:47-55 | name and email are replaced, the role only by a truthy role; id, password and anonymity are kept |
| UserController.UpdateUser | WebApp/Backend_Node/src/controllers/user.controller.js:28-59 | 400 when name or email is falsy, next(err) for a non-string email or NaN id, 409 exactly when another user has the email; then success exactly when the row exists, the name is a string and any truthy role is a Role value, with only that row edited; nothing is written otherwise |
| UserController.PasswordInputError | WebApp/Backend_Node/src/controllers/user.controller.js:77-83 | 400 unless both passwords are truthy and a string newPassword is at least 8 UTF-16 code units long |
| UserController.FourAstralCharactersSuffice | WebApp/Backend_Node/src/controllers/user.controller.js:81 | four characters above U+FFFF already count as 8 |
| UserController.ChangePassword | WebApp/Backend_Node/src/controllers/user.controller.js:71-114 | 400 from the input checks, then 404 exactly when the caller's row is missing, next(err) for non-string passwords, 401 for a wrong old password; on success only the caller's password changes, to the hash of the new one |
| UserController.NewPasswordIsTheOneChecked | WebApp/Backend_Node/src/controllers/user.controller.js:96-108 | with a compare that accepts each password against its own hash, the password just set is the one the next change must present, and no other user changes |
| ChatbotCache.DocumentParts | WebApp/frontend/src/contexts/ChatbotContext.tsx:129-133 | one `documents` file part per file, in order |
| ChatbotCache.PickConcat | WebApp/frontend/src/contexts/ChatbotContext.tsx:120-133 | reading one key from two forms in a row is reading it from each, in order |
| ChatbotCache.PickWhen | WebApp/frontend/src/contexts/ChatbotContext.tsx:122-126 | a conditional entry is read under a key exactly when it was appended and carries that key |
| ChatbotCache.PickDocumentParts | WebApp/frontend/src/contexts/ChatbotContext.tsx:129-133 | the documents parts are read back, in order, under `documents` and under no other key |
| ChatbotCache.CreateFormReadsBack | WebApp/frontend/src/contexts/ChatbotContext.tsx:120-133 | from addChatbot's form the server reads one name and one logoUrl, description and primaryColor exactly when truthy, the logo file when given, and the documents in order |
| ChatbotCache.UpdateFormReadsBack | WebApp/frontend/src/contexts/ChatbotContext.tsx:180-215 | from updateChatbot's form the server reads each field at most once, exactly when its rule sends it, and the documents in order |
| ChatbotCache.UpdateFormTailReadsBack | WebApp/frontend/src/contexts/ChatbotContext.tsx:200-215 | primaryColor is read when truthy, isActive whenever defined, then the documents |
| ChatbotCache.ReplaceBot | WebApp/frontend/src/contexts/ChatbotContext.tsx:232-234 | the list keeps its length; bots with that id become the answer and every other bot is kept in place |
| ChatbotCache.ReplaceBotSettles | WebApp/frontend/src/contexts/ChatbotContext.tsx:232-234 | replacing twice with a bot that keeps the id is replacing once, and a missing id leaves the list unchanged |
| ChatbotCache.DropDocument | WebApp/frontend/src/contexts/ChatbotContext.tsx:276-283 | the owning bot's count goes down by one and its list loses exactly that document, or becomes [] when it was not loaded; no other field changes |
| ChatbotCache.DropDocumentOf | WebApp/frontend/src/contexts/ChatbotContext.tsx:275-285 | only the bots with that chatbot id change |
| ChatbotCache.DropDocumentKeepsCountInStep | WebApp/frontend/src/contexts/ChatbotContext.tsx:278-282 | a count that matched a loaded list holding the document once still matches; when the document is not in the list the count drifts one below the list |
| ChatbotCache.UpdateTarget | WebApp/frontend/src/contexts/ChatbotContext.tsx:166-169 | the id is used exactly when parseInt reads a number other than 0 |
| ChatbotCache.ChatbotStore.constructor | WebApp/frontend/src/contexts/ChatbotContext.tsx:69-71 | before the first fetch the list is [] and nothing is selected |
| ChatbotCache.ChatbotStore.Fetch | WebApp/frontend/src/contexts/ChatbotContext.tsx:71-110 | [] without a token, the fetched list on success, the cache kept on a failure; the selection never changes |
| ChatbotCache.ChatbotStore.AddChatbot | WebApp/frontend/src/contexts/ChatbotContext.tsx:112-159 | nothing is sent without a token; otherwise the create form is sent, and on success the created bot is appended at the end and nothing else changes |
| ChatbotCache.ChatbotStore.UpdateChatbot | WebApp/frontend/src/contexts/ChatbotContext.tsx:161-242 | nothing is sent for an id parsing to NaN or 0 or without a token; otherwise the update form is sent, and on success the bots with that id are replaced in place by the answer |
| ChatbotCache.ChatbotStore.DeleteChatbot | WebApp/frontend/src/contexts/ChatbotContext.tsx:244-266 | the request is sent exactly with a truthy id and a token; on success exactly the bots with that id leave the cache (no backend route answers this request: see `ApiServer.ChatbotDeleteIsNotServed`) |
| ChatbotCache.ChatbotStore.DeleteDocument | WebApp/frontend/src/contexts/ChatbotContext.tsx:268-300 | on success with a token the owning bots drop the document and one from their count, and the other bots are unchanged |
| ChatbotCache.ChatbotStore.ReplaceDocument | WebApp/frontend/src/contexts/ChatbotContext.tsx:302-328 | with a token exactly one `document` file part is sent, and the cache is not edited |
| ChatbotCache.ChatbotStore.SelectChatbot | WebApp/frontend/src/contexts/ChatbotContext.tsx:330-337 | a bot with a falsy id is ignored; any other bot, or null, becomes the selection, and the list is untouched |
| UploadQueue.EndsWithAny | WebApp/frontend/src/components/knowledge-base/UploadZone.tsx:90 | true exactly when some listed suffix ends the name |
| UploadQueue.AcceptanceIgnoresCase | WebApp/frontend/src/components/knowledge-base/UploadZone.tsx:89-91 | a name passes the extension test exactly when its lower-cased form does |
| UploadQueue.Queued | WebApp/frontend/src/components/knowledge-base/UploadZone.tsx:89-106 | never more entries than files, and every entry is pending at progress 0 with an accepted name |
| UploadQueue.QueuedNames | WebApp/frontend/src/components/knowledge-base/UploadZone.tsx:89-106 | a file becomes a pending entry exactly when it was picked and its name is accepted |
| UploadQueue.NextProgress | WebApp/frontend/src/components/knowledge-base/UploadZone.tsx:48 | the bar never passes 90 and grows on every callback below 90 |
| UploadQueue.ProgressAfterTicks | WebApp/frontend/src/components/knowledge-base/UploadZone.tsx:46-54 | after k callbacks the bar is at 10k, held at 90 |
| UploadQueue.Settle | WebApp/frontend/src/components/knowledge-base/UploadZone.tsx:49-53 | the list keeps its length; entries with that id take the new status and progress, the others are untouched |
| UploadQueue.SettleTwice | WebApp/frontend/src/components/knowledge-base/UploadZone.tsx:64-68 | a later edit of the same entry overrides an earlier one |
| UploadQueue.SettleAt | WebApp/frontend/src/components/knowledge-base/UploadZone.tsx:64-83 | with distinct ids, an edit by id is an edit of exactly one position |
| UploadQueue.FinalStatus | WebApp/frontend/src/components/knowledge-base/UploadZone.tsx:63-83 | stored exactly when the server accepted; a failure always carries a message, the server's when it sent one |
| UploadQueue.Finished | WebApp/frontend/src/components/knowledge-base/UploadZone.tsx:63-83 | a finished entry keeps its id and file name and its bar matches its status |
| UploadQueue.AttemptedLeavesNothingPending | WebApp/frontend/src/components/knowledge-base/UploadZone.tsx:134-151 | after a pass with a token no entry is pending, so a second Done attempts nothing and closes the dialog even after failures |
| UploadQueue.WhereKeepsUnique | WebApp/frontend/src/components/knowledge-base/UploadZone.tsx:125 | filtering keeps ids distinct |
| UploadQueue.UploadDialog.constructor | WebApp/frontend/src/components/knowledge-base/UploadZone.tsx:28-30 | the dialog starts with no entries |
| UploadQueue.UploadDialog.HandleFiles | WebApp/frontend/src/components/knowledge-base/UploadZone.tsx:88-109 | the accepted files are appended as pending entries after the existing ones, and the warning shows exactly when some file was dropped |
| UploadQueue.UploadDialog.Tick | WebApp/frontend/src/components/knowledge-base/UploadZone.tsx:47-54 | one callback moves the entry to uploading at the next progress, between 10 and 90 |
| UploadQueue.UploadDialog.Upload | WebApp/frontend/src/components/knowledge-base/UploadZone.tsx:36-86 | without a token nothing changes; otherwise after any number of callbacks the entry ends stored at 100 or failed at 0, and the call succeeds exactly when the server accepted |
| UploadQueue.UploadDialog.HandleDone | WebApp/frontend/src/components/knowledge-base/UploadZone.tsx:128-158 | a no-op while any entry uploads; otherwise the pending entries are uploaded in order, and the list is cleared and the dialog closed exactly when every attempted upload succeeded |
| UploadQueue.UploadDialog.RemoveFile | WebApp/frontend/src/components/knowledge-base/UploadZone.tsx:124-126 | exactly the entries with that id leave the list, the rest keep their order |
| UploadQueue.UploadDialog.HandleClose | WebApp/frontend/src/components/knowledge-base/UploadZone.tsx:160-163 | the list is emptied and the dialog closed without any upload |
| ChatbotModals.Names | WebApp/frontend/src/components/chatbots/CreateChatbotModal.tsx:112 | one name per file, in order |
| ChatbotModals.NewSelections | WebApp/frontend/src/components/chatbots/CreateChatbotModal.tsx:64-79 | a pick adds exactly the picked files of an accepted type whose name is not selected yet |
| ChatbotModals.NoNameSelectedTwice | WebApp/frontend/src/components/chatbots/CreateChatbotModal.tsx:75-79 | no added file shares a name with a file already selected |
| ChatbotModals.DuplicatesWithinAPickStay | WebApp/frontend/src/components/chatbots/CreateChatbotModal.tsx:76-78 | two files with one name in the same pick are both kept, since only earlier selections are checked |
| ChatbotModals.CreateDialog.constructor | WebApp/frontend/src/components/chatbots/CreateChatbotModal.tsx:33-38 | the dialog opens blank: no name, the robot emoji as logo, no files, the blue default colour |
| ChatbotModals.CreateDialog.HandleLogoChange | WebApp/frontend/src/components/chatbots/CreateChatbotModal.tsx:44-59 | a file that is not PNG or JPEG is refused and nothing changes; an accepted file becomes the logo file and its object URL the preview |
| ChatbotModals.CreateDialog.HandleDocumentsChange | WebApp/frontend/src/components/chatbots/CreateChatbotModal.tsx:61-82 | the new selections follow the existing ones, and the warning shows exactly when some picked file had another type |
| ChatbotModals.CreateDialog.HandleRemoveDocument | WebApp/frontend/src/components/chatbots/CreateChatbotModal.tsx:84-91 | every selected file with that name goes and the rest keep their order; every other field of the dialog stays as it was |
| ChatbotModals.CreateDialog.HandleSubmit | WebApp/frontend/src/components/chatbots/CreateChatbotModal.tsx:93-147 | an empty name sends nothing; otherwise the request carries the fields, an empty logo URL when a file is chosen, and the documents by name; a successful create resets the dialog and closes it, a failure keeps every field |
| ChatbotModals.ImageUrlExamples | WebApp/frontend/src/components/chatbots/EditChatbotModal.tsx:59-61 | the scheme is matched as written while the image extension ignores case |
| ChatbotModals.RemoveIndex | WebApp/frontend/src/components/chatbots/EditChatbotModal.tsx:219-221 | exactly the element at that index is removed; an index out of range leaves the list as it is |
| ChatbotModals.SubmitTarget | WebApp/frontend/src/components/chatbots/EditChatbotModal.tsx:164 | the update is addressed to the edited chatbot's own id, and to nothing for id 0 |
| ChatbotModals.SlugTargetsAnotherBot | WebApp/frontend/src/components/chatbots/EditChatbotModal.tsx:164 | a slug starting with a digit 1-9 and a hex letter addresses the chatbot whose id is that digit |
| ChatbotModals.LetterSlugThrows | WebApp/frontend/src/components/chatbots/EditChatbotModal.tsx:164 | a slug starting with a hex letter parses to NaN, so the update throws after the queued deletions ran |
| ChatbotModals.UpdatesOf | WebApp/frontend/src/components/chatbots/EditChatbotModal.tsx:135-150 | name, description and isActive are always sent as typed, and the new documents by name |
| ChatbotModals.EditDialog.constructor | WebApp/frontend/src/components/chatbots/EditChatbotModal.tsx:41-76 | the dialog opens on the stored values with their defaults, with nothing queued, so it reports no change |
| ChatbotModals.EditDialog.ChooseLogo | WebApp/frontend/src/components/chatbots/EditChatbotModal.tsx:190-202 | a non-PNG/JPEG file is refused and nothing changes; otherwise the file is queued and previewed, and clearing the input restores the stored logo or the emoji |
| ChatbotModals.EditDialog.ChooseDocuments | WebApp/frontend/src/components/chatbots/EditChatbotModal.tsx:203-216 | the PDF and text files are appended in order, and the warning shows exactly when another type was picked |
| ChatbotModals.EditDialog.RemoveNewDocument | WebApp/frontend/src/components/chatbots/EditChatbotModal.tsx:219-221 | exactly the queued file at that index leaves the queue |
| ChatbotModals.EditDialog.HandleDeleteDocument | WebApp/frontend/src/components/chatbots/EditChatbotModal.tsx:223-226 | the id is queued for deletion and every document with that id is hidden from the existing list |
| ChatbotModals.EditDialog.HandleSubmit | WebApp/frontend/src/components/chatbots/EditChatbotModal.tsx:118-184 | instructions over 1000 UTF-16 units stop the submit; otherwise the queued deletions run in order and the first failure stops before the update; else the update is always sent, addressed to the corrected target `SubmitTarget` (the chatbot's id, not its slug), has-changes only picks the message, and the dialog closes when the update succeeds |
| ChatbotModals.InstructionsAreNotSent | WebApp/frontend/src/components/chatbots/EditChatbotModal.tsx:135-164 | an edit of the instructions alone counts as a change, yet the form sent has no instructions entry |
| ListPages.LowerOfUpper | WebApp/frontend/src/components/knowledge-base/DocumentsList.tsx:69 | lower-casing an upper-cased text equals lower-casing the text itself |
| ListPages.QueryCaseIrrelevant | WebApp/frontend/src/components/knowledge-base/DocumentsList.tsx:81-83 | the search matches the same rows whatever the query's case |
| ListPages.Listed | WebApp/frontend/src/components/knowledge-base/DocumentsList.tsx:66-72 | the listed id reads back as the stored number, the name is the file name, and the type is the stored type in upper case |
| ListPages.FileIcon | WebApp/frontend/src/components/knowledge-base/DocumentsList.tsx:186-194 | docx and xlsx, in any case, have their own icons, and every other type the page icon |
| ListPages.IconSurvivesListing | WebApp/frontend/src/components/knowledge-base/DocumentsList.tsx:69-194 | upper-casing the type for display does not change its icon |
| ListPages.EmptySearchShowsAll | WebApp/frontend/src/components/knowledge-base/DocumentsList.tsx:81-83 | an empty search shows every document, in order |
| ListPages.PageAfterDeleteInRange | WebApp/frontend/src/components/knowledge-base/DocumentsList.tsx:97-100 | deleting a document shown on a page in range leaves a page in range of the shorter list, and deleting the only document of the last page lands on the new last page |
| ListPages.DocumentsView.constructor | WebApp/frontend/src/components/knowledge-base/DocumentsList.tsx:45 | the list opens on page 1 |
| ListPages.DocumentsView.ChangePage | WebApp/frontend/src/components/knowledge-base/DocumentsList.tsx:182-184 | the page becomes the one asked for, unchecked |
| ListPages.DocumentsView.HandleDelete | WebApp/frontend/src/components/knowledge-base/DocumentsList.tsx:89-111 | the cache drops the document, with the corrected numeric-id comparison of `DropListedDocument`, only when the delete succeeds, and only then steps back when the page showed one document and was not the first |
| ListPages.ListedDeleteKeepsTheDocument | WebApp/frontend/src/components/knowledge-base/DocumentsList.tsx:92 | with the string id the strict comparison never matches, so the cached list keeps the deleted document while its count drops below the list's length |
| ListPages.DropListedDocument | WebApp/frontend/src/components/knowledge-base/DocumentsList.tsx:89-100 | with the numeric id no document with that id is left, and a count that matched a list holding it once still matches |
| ListPages.BotSearchBasics | WebApp/frontend/src/pages/Chatbots.tsx:19-22 | an empty search shows every chatbot, and every chatbot is found by its own name |
| ListPages.ChatbotsView.constructor | WebApp/frontend/src/pages/Chatbots.tsx:15-17 | the grid opens on page 1 with an empty search |
| ListPages.ChatbotsView.ChangePage | WebApp/frontend/src/pages/Chatbots.tsx:30-33 | the page becomes the one asked for and the search is kept |
| ListPages.ChatbotsView.Search | WebApp/frontend/src/pages/Chatbots.tsx:35-38 | a different query resets the grid to page 1; the same query keeps the page |
| ListPages.SearchShowsFirstPage | WebApp/frontend/src/pages/Chatbots.tsx:19-38 | after a new search the grid shows the first six matches, or nothing when none match |
| ListPages.StatCards | WebApp/frontend/src/pages/Dashboard.tsx:46-75 | four cards: the chatbot count with a fixed +0%, then messages, sessions and scans from the stats reply, each 0, +0% and up while there is no reply |
| ListPages.DashboardShowsEveryBot | WebApp/frontend/src/pages/Dashboard.tsx:77-79 | the pages of the dashboard together are the whole chatbot list |
| ListPages.ClampPage | WebApp/frontend/src/pages/QRCodes.tsx:58-63 | a page past the end of a non-empty list moves to the last page; pages in range, and any page of an empty list, are kept; the page never grows |
| ListPages.PageZeroIsNotClamped | WebApp/frontend/src/pages/QRCodes.tsx:58-67 | page 0 is not past the end, so it is kept and shows nothing |
| ListPages.StaleJumpMissesTheLastPage | WebApp/frontend/src/pages/QRCodes.tsx:74-87 | mounted before the list arrived, every update jumps to page 0 and the grid stays empty; mounted with six bots, adding a seventh stays on page 1 |
| ListPages.JumpToLastPage | WebApp/frontend/src/pages/QRCodes.tsx:74-77 | the jump is to the last page of the list as it is now |
| ListPages.JumpShowsTheNewestBot | WebApp/frontend/src/pages/QRCodes.tsx:74-77 | that page is in range, survives the clamp, and ends with the chatbot appended last |
| ListPages.QRCodesView.constructor | WebApp/frontend/src/pages/QRCodes.tsx:17 | the grid opens on page 1 |
| ListPages.QRCodesView.ChangePage | WebApp/frontend/src/pages/QRCodes.tsx:69-71 | the page becomes the one asked for, unchecked |
| ListPages.QRCodesView.Clamp | WebApp/frontend/src/pages/QRCodes.tsx:58-63 | the clamping effect moves the page as ClampPage says |
| ListPages.QRCodesView.ChatbotsUpdated | WebApp/frontend/src/pages/QRCodes.tsx:80-87 | a cache update jumps, as the corrected `JumpToLastPage` does, to the last page of the current list, a page of at least 1 when the list is not empty |
| Transcripts.WithKeyConcat | WebApp/frontend/src/components/chat-history/ConversationsList.tsx:66-69 | the rows with one timestamp in two joined lists are those of each list, in order |
| Transcripts.Transcript | WebApp/frontend/src/components/chat-history/ConversationsList.tsx:66-69 | a thread's entries shown in time order, a permutation of its questions and answers |
| Transcripts.QuestionsBeforeAnswers | WebApp/frontend/src/components/chat-history/ConversationsList.tsx:66-69 | at every instant the questions come before the answers, each group in its own order, since the sort is stable |
| Transcripts.ThreadTranscriptSize | WebApp/frontend/src/components/chat-history/ConversationsList.tsx:66-69 | a server thread shows one entry per question and one per non-empty answer, at most twice its message count |
| Transcripts.Toggle | WebApp/frontend/src/components/chat-history/ConversationsList.tsx:49-57 | the clicked id flips membership and every other id keeps it |
| Transcripts.ToggleTwice | WebApp/frontend/src/components/chat-history/ConversationsList.tsx:49-57 | clicking a header twice restores the expansion state |
| Transcripts.ConversationsView.constructor | WebApp/frontend/src/components/chat-history/ConversationsList.tsx:41 | every thread starts collapsed |
| Transcripts.ConversationsView.ToggleExpanded | WebApp/frontend/src/components/chat-history/ConversationsList.tsx:49-57 | the expansion set is toggled at that id |
| Transcripts.UserLabel | WebApp/frontend/src/components/chat-history/ConversationsList.tsx:119 | the label is never empty: Anonymous for anonymous users, else the name, else Unknown |
| Transcripts.ServerThreadsAreNeverUnknown | WebApp/frontend/src/components/chat-history/ConversationsList.tsx:119 | threads from the server always carry a name, so a thread never shows Unknown: it shows Anonymous exactly when its user is anonymous, else the user's name |
| Transcripts.AnonymousVisitorsShowAnonymous | WebApp/frontend/src/components/chat-history/ConversationsList.tsx:119 | a visitor created by a public chatbot fetch gets a thread named `Anonymous_<time>`, and the history labels it Anonymous rather than that name |
| Transcripts.HistoryLines | WebApp/frontend/src/pages/PublicChat.tsx:110-124 | one entry per stored row plus one per non-empty answer |
| Transcripts.QuestionsConcat | WebApp/frontend/src/pages/PublicChat.tsx:110-124 | the typed entries of two joined histories are those of each, in order |
| Transcripts.HistoryQuestions | WebApp/frontend/src/pages/PublicChat.tsx:110-124 | the questions of the page's history are exactly the user entries the chat-history list shows |
| Transcripts.UserLinesAppend | WebApp/frontend/src/pages/PublicChat.tsx:110-124 | one more stored row adds exactly its question to the user entries |
| Transcripts.HistoryBounded | WebApp/frontend/src/pages/PublicChat.tsx:110-124 | no entry is later than the latest row |
| Transcripts.HistoryInTimeOrder | WebApp/frontend/src/pages/PublicChat.tsx:110-124 | rows in time order give a history in time order, each answer right after its question |
| Transcripts.PageHistoryInTimeOrder | WebApp/frontend/src/pages/PublicChat.tsx:104-124 | the history returned for a visitor is shown in time order |
| Transcripts.Welcome | WebApp/frontend/src/pages/PublicChat.tsx:126-133 | the greeting entry has id 1, comes from the bot at the current time, opens with the bot's name, and goes on with the description when it is truthy, else with the default greeting |
| Transcripts.InitialMessages | WebApp/frontend/src/pages/PublicChat.tsx:110-134 | the page always shows at least one entry: the history when there is one, the greeting alone otherwise |
| Transcripts.VisitorKeysDiffer | WebApp/frontend/src/pages/PublicChat.tsx:43-44 | each chatbot has its own storage key, so a visitor id is never shared between chatbots |
| Transcripts.SendErrorText | WebApp/frontend/src/pages/PublicChat.tsx:183-196 | the toast text is never empty: fixed texts for 400 and 500, otherwise the server's message or the default |
| Transcripts.Exchange | WebApp/frontend/src/pages/PublicChat.tsx:154-181 | a send shows the typed entry first and then the reply when there is one |
| Transcripts.StoredVisitorIdReadsBack | WebApp/frontend/src/pages/PublicChat.tsx:98-171 | a visitor id the page stored itself is read back as the same number by the message request |
| Transcripts.ChatPage.constructor | WebApp/frontend/src/pages/PublicChat.tsx:29-44 | the page starts with no chatbot and no messages, holding the visitor id stored under this chatbot's key |
| Transcripts.ChatPage.Load | WebApp/frontend/src/pages/PublicChat.tsx:88-145 | a failed fetch changes nothing; otherwise the chatbot is shown, a visitor without an id adopts and stores the one returned, the history is asked for the visitor's id and replaces the messages |
| Transcripts.MessageFor | WebApp/frontend/src/pages/PublicChat.tsx:151-172 | nothing is posted when the trimmed input is empty, no chatbot is loaded or the visitor id is unset; otherwise the body is the input as typed with `parseInt` of the visitor id |
| Transcripts.OnlyBlankInputIsHeldBack | WebApp/frontend/src/pages/PublicChat.tsx:151 | with a chatbot and a visitor id, a message goes out exactly when the input has a character that is not JavaScript whitespace |
| Transcripts.ChatPage.Send | WebApp/frontend/src/pages/PublicChat.tsx:151-202 | the request is the one MessageFor decides; when none is made nothing changes; otherwise the input is cleared, the exchange appended, and a failure yields the toast text |
| Transcripts.ChatPage.EndSession | WebApp/frontend/src/pages/PublicChat.tsx:57-72 | the end-session request is made exactly when both the chatbot id and the visitor id are set |
| Accounts.Test | WebApp/frontend/src/pages/UserManagement.tsx:40-43 | the scan finds a character of the class exactly when the string holds one |
| Accounts.LevelOf | WebApp/frontend/src/pages/UserManagement.tsx:45-47 | a score of at most 2 is Weak, 5 or more is Strong, and the rest Medium |
| Accounts.MeterOf | WebApp/frontend/src/pages/UserManagement.tsx:45-47 | the meter reads Weak exactly for the weak level and Strong exactly for the strong one |
| Accounts.PasswordStrength | WebApp/frontend/src/pages/UserManagement.tsx:36-48 | the counter ends at the score, one point per test that holds, at most 6, and picks the meter of its level |
| Accounts.HasAppend | WebApp/frontend/src/pages/UserManagement.tsx:40-43 | a class present in a prefix is present in the whole text |
| Accounts.TypingNeverWeakens | WebApp/frontend/src/pages/UserManagement.tsx:36-48 | typing more never lowers the score, and a Medium or Strong password never drops back |
| Accounts.WhatStrongMeans | WebApp/frontend/src/pages/UserManagement.tsx:36-48 | a password is Strong exactly when it is non-empty and has all four classes, or three of them and 8 code units; the empty password is Weak |
| Accounts.MeterExamples | WebApp/frontend/src/pages/UserManagement.tsx:36-48 | eight lowercase letters are Medium, and adding a capital, a digit and a symbol makes it Strong |
| Accounts.JsLengthOfBmp | WebApp/frontend/src/pages/UserManagement.tsx:39 | a text without astral characters is as long in JavaScript as here |
| Accounts.FetchUsers | WebApp/frontend/src/pages/UserManagement.tsx:50-60 | the page lists exactly the administrators and sub-administrators, and drops a row exactly when some user has another role |
| Accounts.StaffCount | WebApp/frontend/src/pages/UserManagement.tsx:59 | filtering keeps every row exactly when every row is staff |
| Accounts.PlainUsersAreNotListed | WebApp/frontend/src/pages/UserManagement.tsx:59 | a table of plain users lists nobody, so the page shows its empty message |
| Accounts.RoleShown | WebApp/frontend/src/pages/UserManagement.tsx:315 | a sub-administrator is shown as User, every other role as itself |
| Accounts.CreateRequests | WebApp/frontend/src/pages/UserManagement.tsx:218-229 | nothing is sent unless every field is filled, and then the form is sent as it is |
| Accounts.EditRequests | WebApp/frontend/src/pages/UserManagement.tsx:231-245 | nothing is sent without a selected user, a name, an email and a role; otherwise the update of that user comes first, followed by one more request |
| Accounts.EditAlwaysResetsPassword | WebApp/frontend/src/pages/UserManagement.tsx:242-244 | the guard holds for every string, so every accepted edit also resets the password, to the empty string when the field was left blank |
| Accounts.BlankPasswordStillEdits | WebApp/frontend/src/pages/UserManagement.tsx:218-245 | a blank password blocks a creation but not an edit |
| Accounts.UsersRoute | WebApp/Backend_Node/src/routes/user.routes.js:7-15 | a handler only takes a single segment, change-password is reached only by POST, and no route accepts PATCH |
| Accounts.WhereTheRequestsGo | WebApp/Backend_Node/src/routes/user.routes.js:7-15 | the page's create and password-reset requests reach no handler, while updates and deletes reach theirs with an id that reads back as the user's id |
| Accounts.DeleteRequests | WebApp/frontend/src/pages/UserManagement.tsx:253-257 | the delete is sent exactly when the confirmation is accepted, and it reaches the delete handler |
| Accounts.UserManagementView.constructor | WebApp/frontend/src/pages/UserManagement.tsx:123-131 | both dialogs start closed, with no selection and the blank form with role SUB_ADMIN |
| Accounts.UserManagementView.OpenCreate | WebApp/frontend/src/pages/UserManagement.tsx:275 | the create dialog opens and the form is kept |
| Accounts.UserManagementView.HandleEditClick | WebApp/frontend/src/pages/UserManagement.tsx:247-251 | the user is selected and the form takes the user's name, email and role with a blank password |
| Accounts.UserManagementView.HandleCreateSubmit | WebApp/frontend/src/pages/UserManagement.tsx:138-229 | the create requests are sent, and only an accepted creation closes the dialog and blanks the form |
| Accounts.UserManagementView.HandleEditSubmit | WebApp/frontend/src/pages/UserManagement.tsx:158-245 | the edit requests are sent, and either accepted request closes the dialog, clears the selection and blanks the form |
| Accounts.CheckPasswordChange | WebApp/frontend/src/pages/Settings.tsx:137-180 | the first failing check decides: all three fields filled, the two new entries alike, at least 8 UTF-16 code units, a stored token; only then are the old and new passwords sent |
| Accounts.SentPasswordsPassServerChecks | WebApp/frontend/src/pages/Settings.tsx:137-190 | whatever the page sends passes the server's own input checks of change-password |
| Accounts.SettingsPage.constructor | WebApp/frontend/src/pages/Settings.tsx:14-20 | the form starts blank with no user id and loading off |
| Accounts.SettingsPage.FetchUserData | WebApp/frontend/src/pages/Settings.tsx:25-63 | the profile takes the answer of the me request, and stays as it was without a token or on a failure |
| Accounts.SettingsPage.HandleInputChange | WebApp/frontend/src/pages/Settings.tsx:65-68 | only the field named by the input's id takes the value |
| Accounts.SettingsPage.HandlePasswordChange | WebApp/frontend/src/pages/Settings.tsx:71-74 | only the password field named by the input's id changes |
| Accounts.SettingsPage.HandleSave | WebApp/frontend/src/pages/Settings.tsx:77-131 | the save is sent exactly with a token and a truthy user id, carrying the form's fields; loading is off again on every path |
| Accounts.SettingsPage.HandleChangePassword | WebApp/frontend/src/pages/Settings.tsx:134-213 | the checks decide what is sent, the fields are blanked only when the server accepts, and loading is off again on every path |
| Navigation.ChatPath | WebApp/frontend/src/App.tsx:36 | a chat path is /c/ followed by a non-empty id |
| Navigation.RedirectPath | WebApp/frontend/src/App.tsx:31-38 | /login exactly without a token; /dashboard exactly for a signed-in administrator; /not-authorized exactly for a signed-in non-administrator with no cached chatbot |
| Navigation.Route | WebApp/frontend/src/App.tsx:40-69 | a path is NotFound exactly when it is neither /login, nor a one-segment chat path, nor an admin page, nor /not-authorized; a chat page receives the segment after /c/; /login redirects only with a token |
| Navigation.DecimalHasNoSlash | WebApp/frontend/src/App.tsx:36-47 | a decimal id never contains a slash |
| Navigation.ChatPathOpensTheChat | WebApp/frontend/src/App.tsx:36-47 | a chatbot's chat path opens the public chat with a parameter that reads back as the chatbot's id |
| Navigation.RedirectPathIsARoute | WebApp/frontend/src/App.tsx:31-52 | the start path is always a page of the table, and /login shows the form without a token and leaves with one, never redirecting to itself |
| Navigation.SignedIn | WebApp/frontend/src/components/ProtectedRoute.tsx:42 | the stored user keeps the reply's id, name and email, and is a plain user exactly when the reply's role is empty or USER |
| Navigation.GuardDecision | WebApp/frontend/src/components/ProtectedRoute.tsx:70-89 | only a loading view while verification runs; the login page unless verification succeeded; the page itself exactly for an allowed role; otherwise the chat of the first chatbot when its id is truthy, else the not-authorized page |
| Navigation.GuardAgreesWithStartPath | WebApp/frontend/src/components/ProtectedRoute.tsx:78-86 | for a signed-in non-administrator the guard sends them where the start path does, while the first chatbot's id is truthy |
| Navigation.ProtectedRoute.constructor | WebApp/frontend/src/components/ProtectedRoute.tsx:12-18 | the guard starts loading, unverified and mounted |
| Navigation.ProtectedRoute.View | WebApp/frontend/src/components/ProtectedRoute.tsx:70-89 | the guard shows only the loading view while it is loading |
| Navigation.ProtectedRoute.VerifyToken | WebApp/frontend/src/components/ProtectedRoute.tsx:20-68 | no token means unauthenticated with no request; otherwise a good reply stores the user and a failure resets the user context to the signed-out value; loading ends unless the guard unmounted meanwhile; the token itself is never touched |
| Navigation.VerifiedAdminSeesThePage | WebApp/frontend/src/components/ProtectedRoute.tsx:42-89 | an administrator whose token verifies sees the admin page |
| Navigation.VisibleMembers | WebApp/frontend/src/components/admin/Sidebar.tsx:84-85 | the filter keeps exactly the entries that list the role |
| Navigation.VisibleItems | WebApp/frontend/src/components/admin/Sidebar.tsx:23-31 | a role sees exactly the entries whose roles include it |
| Navigation.AdminEntries | WebApp/frontend/src/components/admin/Sidebar.tsx:23-85 | an administrator sees all six entries, in order |
| Navigation.SubAdminEntries | WebApp/frontend/src/components/admin/Sidebar.tsx:23-85 | a sub-administrator sees Chatbots, Knowledge Base and Chat History |
| Navigation.UserEntries | WebApp/frontend/src/components/admin/Sidebar.tsx:23-85 | a plain user sees no entry |
| Navigation.NotAChatPath | WebApp/frontend/src/App.tsx:47 | a path whose first segment is not c is not a chat path |
| Navigation.SidebarPathRoutes | WebApp/frontend/src/App.tsx:50-67 | the sidebar's fixed paths open their guarded admin pages, except /users, which is NotFound |
| Navigation.AdminEntriesLead | WebApp/frontend/src/components/admin/Sidebar.tsx:23-31 | every administrator entry opens a guarded admin page except User Management, whose path is not in the route table |
| Navigation.SubAdminEntriesLead | WebApp/frontend/src/components/admin/Sidebar.tsx:25-28 | a sub-administrator's entries all lead to pages whose ADMIN-only guard turns a sub-administrator away |
| Navigation.RoleTag | WebApp/frontend/src/components/admin/Sidebar.tsx:75 | a sub-administrator is tagged USER, every other role as itself |
| Navigation.Sidebar.constructor | WebApp/frontend/src/components/admin/Sidebar.tsx:34 | the mobile menu starts closed |
| Navigation.Sidebar.ToggleMenu | WebApp/frontend/src/components/admin/Sidebar.tsx:128 | the menu button flips the menu |
| Navigation.Sidebar.FollowEntry | WebApp/frontend/src/components/admin/Sidebar.tsx:88-90 | following an entry closes the menu and goes to the entry's path |
| Navigation.Sidebar.HandleLogout | WebApp/frontend/src/components/admin/Sidebar.tsx:40-45 | logout removes the token, resets the user, closes the menu and opens /login |
| Navigation.AfterLogout | WebApp/frontend/src/components/admin/Sidebar.tsx:40-45 | after logout /login shows the form, the start path is /login, a guard sends the visitor there and the sidebar offers nothing |

## Left out

- Rendering, animation, toasts and console logs: they draw the pages and change no modelled state.
- React-Query invalidations: each triggers a refetch, which is modelled as a separate `ChatbotCache.ChatbotStore.Fetch` call rather than as part of the handler that invalidates.
- ConversationController.ThreadOf: a user or chatbot row missing for a conversation's pair, which the foreign keys rule out, gives blank user and chatbot fields here; the source would throw on the missing relation.
- ChatbotModals.EditDialog.HandleSubmit: addresses the update through the corrected `SubmitTarget` (the chatbot's id). The source's slug target, which updates another chatbot or throws after the queued deletions ran, is modelled by `ChatbotModals.SubmitTargetAsWritten` and `ChatbotModals.SlugTargetsAnotherBot` (see Findings), not by the handler.
- ListPages.DocumentsView.HandleDelete: drops the document through the corrected `DropListedDocument`. The source's string-id comparison, which keeps the document in the cached list, is modelled by `ListPages.DropListedDocumentAsWritten` and `ListPages.ListedDeleteKeepsTheDocument` (see Findings), not by the handler.
- ListPages.QRCodesView.ChatbotsUpdated: jumps through the corrected `JumpToLastPage` on the current list. The source's subscription made once on mount, which jumps by the list seen at mount, is modelled by `ListPages.JumpAsWritten` and `ListPages.StaleJumpMissesTheLastPage` (see Findings), not by the handler.
- Cloudinary uploads and destroys, multer disk storage, `ensureUploadsDir`, `fs` access and unlink: an upload is a parameter URL, and a destroy is recorded as the public id it would destroy.
- jwt signing and verification, bcrypt, QR encoding, uuid generation and `Math.random`: these are parameters. The random upload-entry ids are assumed distinct.
- The Python AI service and the document reprocessing call: their answers are parameters, and a failed reprocess is modelled as not undoing a delete.
- Date.now, `new Date()` and local midnight are integer parameters. Date strings are integer timestamps.
- Integer width: ids, counts and timestamps are unbounded integers. JavaScript numbers are exact only up to 2^53, and the database's `Int` columns are bounded (32 bits under Prisma's default mapping; the Prisma schema is not part of this model). A lookup with an id outside that range makes the Prisma call throw, and the handler's catch answers 500 or forwards the error; the model finds no row and answers 403 or 404 instead (for example `DocumentController.GetDocumentsByChatbot` with chatbot id 3000000000).
- Prisma's query engine. Tables are sequences in insertion order; groupBy yields groups in first-seen order; sorting with ties keeps table order. A Prisma call that would throw, such as a lookup with a NaN id, is a 500 or a forwarded error.
- Collation: the database's case-insensitive `contains` and JavaScript's `toLowerCase`/`toUpperCase` are modelled on ASCII letters only.
- The toFixed(1) rendering of trend percentages: trends are exact rationals (`real`) with their sign rule, and `formatFileSize` is not modelled (floating point).
- Concurrency: the Promise.all document uploads and the check-then-act session race run sequentially here.
- The shadowed first definitions of listMyChatbots, getQRCodes and getChatbotStats in `chatbot.controller.js` (lines 411, 431 and 749) are unreachable and not modelled.
- listMyChatbots, getQRCodes and getChatbotForEdit in `chatbot.controller.js` are reads that add display defaults; regenerateQRCode rewrites `qrUrl` through the QR encoder after the same id, 404 and owner-or-ADMIN guards as updateChatbot; uploadDocuments inserts documents with the folder and file-type rules of `StorageNames.FolderName` and `StorageNames.FileTypeWithoutDot`. Their routes are in `ChatbotRoutes.DispatchFrom`, but their handler bodies are not modelled: they add no rule beyond those already modelled.
- getAllUsers and deleteUser in `user.controller.js` are single Prisma calls behind the ADMIN gate; they carry no rule of their own.
- The backend has no handler for POST /api/users/sub-admin or PATCH /api/users/:id/password. The model proves that these requests reach no route instead of modelling a handler.
- `instanceof File` checks in the cache: every file here is a file.
- The edit dialog's fetch of the chatbot for editing: the dialog opens on the stored values, and the fetched documents are a constructor parameter.
- DocumentsList's replace and download handlers: they only forward to `ChatbotCache.ChatbotStore.ReplaceDocument` and to the download endpoint.
- The QR page's user query gating and its role-dependent empty-state text: rendering only.
- react-router's case-insensitive and trailing-slash path matching: paths are matched as written.
- Navigation.AppState.constructor: localStorage and the user context are one shared object, without the persistence across reloads.
- ListPages.StatCards: a missing stats reply is a whole-object `None`; the source's per-field `??` fallbacks on a partial reply are not modelled.
- Transcripts.ChatPage.Send: the reload of the history that follows a reply is a separate `Load` call.
- Navigation.ProtectedRoute.VerifyToken: an unmount during the request is one boolean, and the effect's re-runs on a new `setUser` are not modelled.
- UploadQueue.UploadDialog.HandleFiles: requires the new entries' ids to be distinct from each other and from the existing ones, which `Date.now() + Math.random()` makes likely but does not guarantee.

## Findings

| source | as written | input that shows it | evidently intended | confidence | as-written member | corrected member |
|---|---|---|---|---|---|---|
| WebApp/frontend/src/components/chatbots/EditChatbotModal.tsx:164 | the edit dialog passes `chatbot.slug` to `updateChatbot`, which parses it with `parseInt(·, 10)` as the chatbot id | a slug starting with `7c…` updates the chatbot with id 7; a slug starting with a hex letter throws after the queued document deletions already ran | address the update to `chatbot.id` | not executed | ChatbotModals.SlugTargetsAnotherBot | ChatbotModals.SubmitTarget |
| WebApp/frontend/src/components/knowledge-base/DocumentsList.tsx:92 | the list passes its string id to `deleteDocument`, whose cache edit keeps documents with `doc.id !== id` (ChatbotContext.tsx:281) | deleting document 5 from a bot whose cached list holds document 5: the number 5 never strictly equals the string "5", so the list keeps it while documentsCount drops by one | remove the deleted document from the cached list | not executed | ListPages.ListedDeleteKeepsTheDocument | ListPages.DropListedDocument |
| WebApp/frontend/src/pages/QRCodes.tsx:74-87 | the cache subscription is made once on mount, so `handleChatbotAdded` computes the last page of the list seen at mount | mounted before the list arrives (0 bots), every update sets the page to 0 and the grid shows nothing; mounted with 6 bots, adding a 7th stays on page 1 | jump to the last page of the current list | not executed | ListPages.StaleJumpMissesTheLastPage | ListPages.JumpToLastPage |
