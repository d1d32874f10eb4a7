# businessmap-mcp, modelled in Dafny

businessmap-mcp is a Model Context Protocol (MCP) server in front of the
BusinessMap (Kanbanize) REST API. An MCP client calls named tools such as
`list_cards`, `search_board` or `invite_user`. Each tool validates its
arguments against a schema, calls one method of the API client, and answers
with a text response: the JSON of what came back, or an error naming the
operation. A read-only flag keeps the write tools off the server, and the
client modules refuse writes on their own as well.

The model covers:

- **Configuration** (`Environment`): how each environment variable is read
  (required, boolean, number, comma-separated list, transport kind), the
  defaults, the `config` object and `validateConfig`.
- **The API client** (`Client`, `Requests`, `CardClient`, `BoardClient`):
  the response interceptor that normalises every upstream error;
  `healthCheck`, `getApiInfo` and the one-way `initialize`; and each
  card-module and board-module method as the request it sends (verb, path,
  query, body), whether it passes through the read-only guard, and what it
  resolves to.
- **The tools** (`Responses`, `Registry`, `CardTools`, `BoardTools`,
  `BoardSearch`, `UserTools`): which tools are registered in each mode, the
  parameters each write tool builds, the response envelope, and the
  `search_board` lookup with its fallbacks.
- **Argument schemas** (`Schemas`): required and optional fields, and what a
  zod parse keeps.
- **Start-up and transport** (`Startup`, `HttpServer`): `main`, with its
  three connection attempts, and the SSE front end's session table.
- **Utilities** (`Logging`, `ResourceCount`): the stderr logger with its
  level threshold, and the item count the resource-validation script uses.
- **Shared modules** (`JsValue`, `Text`): the JavaScript semantics the rest
  relies on, namely object property order, spreads, `undefined`-skipping
  records, truthiness, `toLowerCase`, `trim`, `split`, template-literal
  numbers and `Number.parseInt`.

The HTTP transport, `src/server/http.ts`, is a plain SSE server: a `Map`
from session id to transport, plus `/sse`, `/message` and `/health`. The
allowed-hosts and allowed-origins settings are read into the configuration
but nothing in the modelled code enforces them.

Upstream answers, the read-only guard's verdict, `JSON.stringify`, URL
validity and the email check are parameters of the model.

## Model

| member | source | states |
|---|---|---|
| JsValue.ErrorMessage | src/index.ts:33 | a thrown `Error` gives its message; any other thrown value gives "Unknown error" |
| JsValue.IndexOf | src/server/tools/board-tools.ts:104 | the position of the first property with that name, or -1 exactly when no property has it |
| JsValue.Get | src/client/businessmap-client.ts:128-140 | reading an absent property gives undefined |
| JsValue.Put | src/server/tools/user-tools.ts:90-93 | after `obj[k] = v`, `k` reads `v`; every other property keeps its presence and value; a new key is appended at the end; keys stay unique |
| JsValue.Spread | src/server/tools/board-tools.ts:89 | spreading keeps the property names unique |
| JsValue.SpreadGet | src/server/tools/board-tools.ts:89 | after `{...a, ...b}` a key is present iff it is in either object, and takes `b`'s value when `b` has it, else `a`'s |
| JsValue.Omit | src/client/modules/card-client.ts:147-152 | rest destructuring drops the key, keeps only properties that were there, and keeps keys unique |
| JsValue.OmitGet | src/client/modules/card-client.ts:147-152 | every property other than the omitted one keeps its presence and value |
| JsValue.Member | src/server/tools/card-tools.ts:138 | reading a property throws exactly on null and undefined; on an object it gives the property's value |
| JsValue.Length | src/server/tools/card-tools.ts:247-251 | `.length` throws exactly on null and undefined; an array gives its item count |
| JsValue.Defined | src/server/tools/board-tools.ts:341-347 | the record keeps only fields the candidate list holds, and none whose value is undefined |
| JsValue.DefinedExtend | src/server/tools/user-tools.ts:90-93 | one more `if (v !== undefined) params[k] = v` step, for a new name, adds exactly that field when it is defined |
| JsValue.DefinedGet | src/server/tools/board-tools.ts:341-347 | with distinct candidate names, a field is present iff its value is defined, and it reads its candidate's value |
| Text.Lower | src/config/environment.ts:46 | `toLowerCase` keeps the length and folds each character on its own |
| Text.LowerIdempotent | src/config/environment.ts:69 | lower-casing twice equals lower-casing once |
| Text.TrimStart | src/config/environment.ts:64 | removes exactly the leading whitespace, and the result starts with a non-space |
| Text.TrimEnd | src/config/environment.ts:64 | removes exactly the trailing whitespace, and the result ends with a non-space |
| Text.TrimSpec | src/config/environment.ts:121 | `trim` is a middle slice of the string with only whitespace cut off either side; it is empty iff the string is all whitespace |
| Text.TrimIsTrimmed | src/config/environment.ts:64 | neither end of a trimmed string is whitespace |
| Text.TrimKeepsChars | src/config/environment.ts:64 | trimming introduces no character |
| Text.TrimOfTrimmed | src/config/environment.ts:64 | trimming is the identity on a string that is already trimmed |
| Text.TrimLeadingSpace | src/config/environment.test.ts:37-47 | the space after a comma is trimmed away |
| Text.Split | src/config/environment.ts:63 | `split` gives at least one piece, and no piece contains the separator |
| Text.FirstIndex | src/config/environment.ts:63 | the separator's first occurrence: it is at that index and nowhere before |
| Text.FirstIndexAt | src/config/environment.ts:63 | an occurrence with none before it is the first index |
| Text.SplitJoin | src/config/environment.ts:63 | splitting a joined list of separator-free pieces gives the list back |
| Text.NatToString | src/client/modules/card-client.ts:130-132 | a natural number is written as at least one decimal digit |
| Text.IntToString | src/client/modules/card-client.ts:130-132 | a template literal writes an integer as a non-empty string |
| Text.DigitsOfNat | src/client/modules/card-client.ts:130-132 | the digits written for `n` have value `n` |
| Text.DigitPrefix | src/config/environment.ts:52 | the longest all-digit prefix: every character in it is a digit, and the next one is not |
| Text.ParseInt | src/config/environment.ts:52 | `Number.parseInt(s, 10)` is NaN exactly when no digit follows the leading whitespace and an optional sign |
| Text.ParseIntOfIntToString | src/config/environment.ts:52 | parsing reads back any integer a template literal wrote, even with non-digit text after it |
| Text.DigitPrefixAll | src/config/environment.ts:52 | the digit prefix of digits followed by a non-digit is exactly those digits |
| Text.DisplayNumber | src/server/tools/card-tools.ts:143 | a number interpolated into text reads back as that number |
| Client.ApiMessage | src/client/businessmap-client.ts:130-139 | the API's message exists iff the body is an object whose `error` is an object with a string `message`, and it is that string |
| Client.TransformError | src/client/businessmap-client.ts:128-144 | always an `Error`: "BusinessMap API Error: " with the API's message, or else the library's, when there is a reply; "Network Error: " plus the library's message when there is none |
| Client.Through | src/client/businessmap-client.ts:42-47 | a module sees the reply iff there was one; any failure reaches it already transformed |
| Client.ThroughErrorsNamed | src/client/businessmap-client.ts:42-47 | every error a module sees is an `Error` whose message starts with "BusinessMap API Error: " or "Network Error: " |
| Client.HealthCheck | src/client/modules/utility-client.ts:8-20 | `healthCheck` is true exactly when `GET /me` answers |
| Client.GetApiInfo | src/client/modules/utility-client.ts:25-42 | on an answer, the fixed description with endpoint "/me" and status "healthy"; on a failure, "API connection failed: " plus the transformed message |
| Client.FirstFailureOrder | src/client/businessmap-client.ts:82-112 | initialisation succeeds iff URL and token are set and both probes answer; the URL check comes first, then the token, then the health probe |
| Client.InfoFailureMessage | src/client/businessmap-client.ts:103-111 | a failing API-info probe, whose message starts "API connection failed: ", becomes "Authentication failed …" when that message contains "401", else "API verification failed: " plus it |
| Client.SameOutcomeNeverReachesInfoFailure | src/client/businessmap-client.ts:94-111 | both probes request `GET /me`, so when they get the same outcome the failure is never the API-info failure |
| Client.BusinessMapClient.constructor | src/client/businessmap-client.ts:18-39 | a new client keeps its URL and token and is not initialised |
| Client.BusinessMapClient.Initialized | src/client/businessmap-client.ts:124-126 | the getter reports the flag |
| Client.BusinessMapClient.Initialize | src/client/businessmap-client.ts:75-119 | an initialised client returns at once and sends nothing; otherwise the flag is set iff no check fails, a failure is thrown as "Failed to initialize BusinessMap client: " plus its message, and a probe is sent only after both settings pass |
| Client.InitializeIsSticky | src/client/businessmap-client.ts:76-78 | after one success, a second call succeeds and sends no request, whatever the server would answer |
| Requests.IdReadsBack | src/client/modules/card-client.ts:130-132 | a numeric path segment parses back to the id it was written from |
| Requests.Url | src/client/modules/card-client.ts:130-132 | the path begins with a slash and the first segment |
| Requests.Perform | src/client/modules/card-client.ts:138-141 | nothing is sent iff the guard is called and refuses, and then its error is thrown; otherwise exactly the described request is sent, a failure is thrown transformed, and success gives `response.data.data` or nothing for a void method |
| Requests.UnguardedIgnoresMode | src/client/modules/card-client.ts:130-132 | a method that does not call the guard behaves the same whatever the guard decides |
| Requests.RefusedSendsNothing | src/client/modules/card-client.ts:138-141 | a refused method sends nothing, and its result does not depend on what the server would answer |
| CardClient.ReadPath | src/client/modules/card-client.ts:183-193 | every card-scoped read is addressed under `/cards/{id}` |
| CardClient.DataCall | src/client/modules/card-client.ts:138-141 | a mutation that returns data calls the guard, sends no query, uses neither GET nor DELETE, and returns the data |
| CardClient.VoidCall | src/client/modules/card-client.ts:321-331 | a void mutation calls the guard and returns nothing; it is a DELETE with no body, except for blocking a card and adding a tag |
| CardClient.Describe | src/client/modules/card-client.ts:121-416 | the guard is called iff the method mutates; only `getCards` has a query; GET and DELETE carry no body; data is returned iff the method is not void; card-scoped paths start `/cards/{id}` |
| CardClient.CardIdReadsBack | src/client/modules/card-client.ts:130-132 | the card id can be read back from the path of every card-scoped request |
| CardClient.GetCardsQuery | src/client/modules/card-client.ts:121-125 | `getCards` sends `board_id` with the board passed, and every other filter with its value |
| CardClient.GetCardsWithoutFilters | src/client/modules/card-client.ts:121-125 | without filters the query is just `board_id` |
| CardClient.UpdateCardRequest | src/client/modules/card-client.ts:147-152 | `updateCard` PATCHes the card named by `card_id` with every other parameter, and `card_id` is not in the body |
| CardClient.MoveCardBody | src/client/modules/card-client.ts:157-170 | `moveCard` sends the column, the lane and the position, and nothing else |
| CardClient.BlockCardBody | src/client/modules/card-client.ts:321-324 | `blockCard` PUTs `[{comment: reason}]` to `/cards/{id}/blockReason` |
| CardClient.CommentPath | src/client/modules/card-client.ts:348-366 | reading, updating and deleting a comment address `/cards/{card}/comments/{comment}` |
| CardClient.AddStickerRequest | src/client/modules/card-client.ts:401-408 | adding a sticker POSTs the sticker id in the body |
| CardClient.RemoveStickerRequest | src/client/modules/card-client.ts:414-416 | removing a sticker DELETEs the card-sticker association, with no body |
| BoardClient.Describe | src/client/modules/board-client.ts:40-160 | the guard is called iff the method mutates; only `getBoards` has a query; GET and DELETE carry no body; data is returned iff the verb is not DELETE; board-scoped paths start `/boards/{id}` |
| BoardClient.BoardIdReadsBack | src/client/modules/board-client.ts:49-51 | the board id can be read back from every board-scoped path |
| BoardClient.GetBoardsQuery | src/client/modules/board-client.ts:40-44 | `getBoards` passes its filters unchanged, and an empty object when there are none |
| BoardClient.ColumnPath | src/client/modules/board-client.ts:146-160 | updating or deleting a column addresses `/boards/{board}/columns/{column}` |
| BoardClient.LanePath | src/client/modules/board-client.ts:107-110 | a lane is addressed as `/lanes/{id}`, with no board in the path |
| Responses.TextResponse | src/server/tools/card-tools.ts:139-146 | a single text item, with no error flag |
| Responses.CreateErrorResponse | src/server/tools/base-tool.test.ts:4-26 | one text item "Error {operation}: {message}" ("Unknown error" for a non-Error value), flagged as an error |
| Responses.CreateSuccessResponse | src/server/tools/base-tool.test.ts:30-56 | one text item holding the serialised data, preceded by the message and a newline when one is given, and no error flag |
| Responses.ErrorAndSuccessDiffer | src/server/tools/base-tool.test.ts:53-56 | an error response never equals a success response |
| Responses.SuccessTextSplits | src/server/tools/base-tool.test.ts:39-44 | the message is the first line of the success text, and the data follows it |
| Responses.Counted | src/server/tools/card-tools.ts:247-251 | `{ [key]: items, count: items.length }` for a list, in that order; it throws exactly on null and undefined |
| Responses.Respond | src/server/tools/card-tools.ts:118-123 | a thrown or shaping error becomes the error response for the operation; anything else becomes the success response; the error flag is set iff something failed |
| Registry.ToolServer.constructor | src/server/tools/board-tools.ts:19 | a new server has no tools |
| Registry.ToolServer.RegisterTool | src/server/tools/board-tools.ts:37-53 | the tool is added after those already registered |
| Registry.ToolServer.RegisterEach | src/server/tools/board-tools.ts:20-25 | a run of registrations adds the names in order |
| CardTools.RegisterTools | src/server/tools/card-tools.ts:41-86 | the read tools always, then the write tools unless read-only |
| CardTools.RegisteredTools | src/server/tools/card-tools.ts:41-86 | 16 tools when read-only and 36 otherwise; every read tool is present, and a write tool is present iff writes are allowed |
| CardTools.ClientCall | src/server/tools/card-tools.ts:805-853 | every tool calls a card-module method, except the two predecessor tools |
| CardTools.WriteToolsAreGuarded | src/server/tools/card-tools.ts:41-86 | a tool is a write tool iff the client method it calls passes through the read-only guard |
| CardTools.Echo | src/server/tools/card-tools.ts:585-607 | exactly the void mutations echo; an echo is an object of one or two properties whose first is `card_id` with the tool's card id; only `unblock_card` and `delete_card` echo the card alone |
| CardTools.EchoHoldsArgs | src/server/tools/card-tools.ts:517-846 | an echo has distinct names and holds the card id under `card_id` and the tool's other argument under its own name (`parent_card_id`, `reason`, `comment_id`, `tag_id`, `sticker_card_id`, `predecessor_card_id`), each with the value given |
| CardTools.SizeOrZero | src/server/tools/card-tools.ts:138 | `size \|\| 0`: a truthy size is kept, anything else becomes 0 |
| CardTools.SizeReport | src/server/tools/card-tools.ts:137-146 | the size text fails exactly when the fetched card is null or undefined; for a card object it names the card's title, the requested id and the card's size, or 0 when the size is missing or falsy |
| CardTools.SizelessCardReadsZero | src/server/tools/card-tools.ts:137-143 | `get_card_size` on a card without a truthy size answers "… has size: 0 points" |
| CardTools.SizeUpdate | src/server/tools/card-tools.ts:221-229 | the size-update text fails exactly when the updated card is null or undefined; for a card object it names the card's title, the id and the size that was requested |
| CardTools.SizeUpdateReportsRequested | src/server/tools/card-tools.ts:221-226 | the size reported is the one requested: whatever size the updated card carries does not change the text |
| CardTools.Handle | src/server/tools/card-tools.ts:88-853 | one content item; anything thrown becomes the error response for the tool's operation; every error text starts "Error {operation}: "; on success a data tool answers with the value returned and its message, a void mutation with its echo and its message, and the size tools with their text or the error of reading it |
| CardTools.PredecessorParams | src/server/tools/card-tools.ts:816-818 | each position is present iff it was given, with the value given, and nothing else is present |
| CardTools.ListCardsQuery | src/server/tools/card-tools.ts:96-99 | `list_cards` queries its board with exactly the tool's other arguments |
| CardTools.SetCardSizeRequest | src/server/tools/card-tools.ts:221 | `set_card_size` PATCHes the card it names, with only the size in the body |
| CardTools.CountResponse | src/server/tools/card-tools.ts:247-251 | a list is answered with itself and its length, in that order, as a success; null or undefined is answered with an error |
| CardTools.CountMatchesLength | src/server/tools/card-tools.ts:247-251 | a list tool reports the list under its key with a count equal to its length; null or undefined gives an error |
| CardTools.VoidResultIgnored | src/server/tools/card-tools.ts:585-607 | a void mutation's success ignores what the client returned |
| CardTools.EchoIffVoid | src/server/tools/card-tools.ts:517-523 | a tool echoes its arguments iff its client method returns nothing |
| BoardTools.RegisterTools | src/server/tools/board-tools.ts:19-34 | the six read tools always, then the five write tools unless read-only |
| BoardTools.RegisteredTools | src/server/tools/board-tools.ts:19-34 | 6 tools when read-only and 11 otherwise; every read tool is present, and a write tool is present iff writes are allowed |
| BoardTools.SubColumnBase | src/server/tools/board-tools.ts:320 | a sub-column's base names exactly its parent, position and name, with the values given, no name twice |
| BoardTools.MainColumnBase | src/server/tools/board-tools.ts:321 | a main column's base names exactly its workflow, section, position and name, with the values given, no name twice |
| BoardTools.ColumnBase | src/server/tools/board-tools.ts:319-321 | a sub-column names its parent; a main column names its workflow and section instead; both name position and name |
| BoardTools.CreateColumnParams | src/server/tools/board-tools.ts:319-321 | every name other than `limit` and `description` is present and valued as in the base; `limit` is present iff it is defined and `description` iff it is truthy, each with the value given; no name twice; only column keys appear |
| BoardTools.UpdateColumnParams | src/server/tools/board-tools.ts:341-347 | the parameters built one `if` at a time are exactly the defined fields among name, limit, section, position and description, in that order |
| BoardTools.OrNull | src/server/tools/board-tools.ts:276 | `description \|\| null`: a truthy value is kept, anything else becomes null |
| BoardTools.WriteToolsAreGuarded | src/server/tools/board-tools.ts:19-34 | a tool is a write tool iff the client method it calls passes through the read-only guard |
| BoardTools.Handle | src/server/tools/board-tools.ts:183-373 | one content item; error flag iff the call threw; thrown values become the error response for the operation; deleting a column answers with `{board_id, column_id}` as given; every other tool answers with the value returned, after its message if it has one |
| BoardTools.CreateLaneDescription | src/server/tools/board-tools.ts:263-286 | `create_lane` sends null for an empty or missing description and the others as given |
| BoardTools.UpdateColumnRequest | src/server/tools/board-tools.ts:331-354 | `update_column` PATCHes the column it names with exactly its defined fields |
| BoardSearch.WorkspaceFilter | src/server/tools/board-tools.ts:103 | a filter is passed iff the workspace id is truthy, and it names that workspace |
| BoardSearch.Summary | src/server/tools/board-tools.ts:175-181 | a board is summarised as `board_id`, `name` and `workspace_id`, in that order, with the board's values |
| BoardSearch.FormatBoardsList | src/server/tools/board-tools.ts:175-181 | one summary per board, in order |
| BoardSearch.Matching | src/server/tools/board-tools.ts:124-126 | a board is in the result iff it is in the list and its lower-cased name contains the lower-cased query; a matching first board comes first |
| BoardSearch.MatchingAppend | src/server/tools/board-tools.ts:124-126 | filtering a concatenation gives the concatenation of the filtered parts, so matches keep their order and multiplicity |
| BoardSearch.MatchingOne | src/server/tools/board-tools.ts:124-126 | a single board is kept iff it matches |
| BoardSearch.MatchingIgnoresCase | src/server/tools/board-tools.ts:125 | the query's letter case does not matter |
| BoardSearch.EmptyNameMatchesAll | src/server/tools/board-tools.ts:125 | an empty query matches every board |
| BoardSearch.FindBoard | src/server/tools/board-tools.ts:104 | `find` gives the first board with that id, or none when no board has it |
| BoardSearch.WithStructure | src/server/tools/board-tools.ts:156-173 | the board with its structure added, or without it and a message naming the structure error; never an error response |
| BoardSearch.SearchById | src/server/tools/board-tools.ts:83-96 | fetches the board and its structure first; fails only when one of them fails and the list fails too |
| BoardSearch.FindInList | src/server/tools/board-tools.ts:98-116 | a board found in the list is shown with its structure; otherwise an error lists every board |
| BoardSearch.SearchByName | src/server/tools/board-tools.ts:118-149 | the list is fetched first, and a failing list escapes |
| BoardSearch.MatchInList | src/server/tools/board-tools.ts:128-148 | success iff several boards match, or one does and has a truthy id; the structure is fetched only in that one-board case; no match gives the "No boards found matching name" error listing every board, labelled "searching for board by name"; a single match without an id gives "Board missing board_id", labelled "board validation" |
| BoardSearch.AllBoards | src/server/tools/board-tools.ts:151-154 | fetches only the list, and succeeds iff the list does; on success it answers with every board of the list, summarised in order, after "All available boards:" |
| BoardSearch.SearchBoard | src/server/tools/board-tools.ts:64-79 | by id iff a truthy id is given, and then that board is fetched first; one content item; a failing list call that escapes becomes the "searching for board" error, after the calls already made |
| BoardSearch.DirectHitSkipsList | src/server/tools/board-tools.ts:83-90 | when board and structure both answer, no list is fetched and the board is shown with its structure |
| BoardSearch.FallbackRefetchesSameBoard | src/server/tools/board-tools.ts:98-116 | after a failed direct lookup, a board found in the list has its structure fetched again |
| BoardSearch.MissingIdListsBoards | src/server/tools/board-tools.ts:106-113 | an id found nowhere gives an error listing every board |
| BoardSearch.EmptyNameListsAll | src/server/tools/board-tools.ts:69-76 | an empty name answers exactly as no name does; when the list is fetched, that answer is every board after "All available boards:", with the list as the only fetch |
| BoardSearch.NoCriteriaListsAll | src/server/tools/board-tools.ts:64-79 | with no non-zero id and no non-empty name, `search_board` answers with every board of the list, summarised, after "All available boards:", and fetches only the list |
| BoardSearch.SingleMatchShowsBoard | src/server/tools/board-tools.ts:139-144 | a single match with an id is shown with its structure, after the list and the structure fetches |
| BoardSearch.NameSearchAfterList | src/server/tools/board-tools.ts:118-149 | once the list arrives, a name search answers as the matching stage does |
| BoardSearch.SingleMatchInList | src/server/tools/board-tools.ts:139-144 | the matching stage fetches the structure of a single match |
| BoardSearch.SeveralMatchesListed | src/server/tools/board-tools.ts:145-148 | several matches are listed without any structure fetch |
| UserTools.Name | src/server/tools/user-tools.ts:12-20 | a tool's name is in the write set iff it is a write tool, and in the read set otherwise |
| UserTools.RegisterTools | src/server/tools/user-tools.ts:12-20 | the three read tools always, then `invite_user` unless read-only |
| UserTools.RegisteredTools | src/server/tools/user-tools.ts:12-20 | 3 tools when read-only and 4 otherwise; every read tool is present, and `invite_user` is present iff writes are allowed |
| UserTools.InviteParams | src/server/tools/user-tools.ts:90-93 | the parameters built one `if` at a time are exactly the candidate fields that were given, in order |
| UserTools.InviteParamsContents | src/server/tools/user-tools.ts:90-93 | the email always; the confirmation flag iff it was given, with its value; nothing else; no name twice |
| UserTools.Handle | src/server/tools/user-tools.ts:22-101 | error flag iff the call threw; an invitation's success is prefixed "User invited successfully:"; other successes are the bare data |
| UserTools.FailureLabels | src/server/tools/user-tools.ts:96-98 | whatever the serialiser, failures are flagged and read "Error inviting user: …" and "Error fetching users: …" |
| Schemas.Picked | src/schemas/user-schemas.ts:15-25 | one entry per schema field, with the input's value for that name |
| Schemas.Parse | src/schemas/user-schemas.ts:15-25 | accepted iff every field is satisfied; the output keeps exactly the defined values of the schema's fields |
| Schemas.ParseKeepsFields | src/schemas/user-schemas.ts:15-25 | parsed keys are unique; a schema field reads its input value, and any other key is stripped |
| Schemas.AllOptionalAcceptsEmpty | src/schemas/board-schemas.test.ts:4-7 | a schema with only optional fields accepts `{}` and gives `{}` |
| Schemas.DefinedEmpty | src/schemas/board-schemas.test.ts:39-42 | a record whose candidates are all undefined is empty |
| Schemas.MissingRequiredRejected | src/schemas/card-schemas.test.ts:9-12 | a missing required field is rejected |
| Schemas.IllTypedRejected | src/schemas/card-schemas.test.ts:33-35 | a field given with a value of the wrong kind is rejected, optional or not |
| Schemas.EmptySchemasAcceptAnything | src/schemas/user-schemas.ts:4 | the empty schemas accept any object and strip every key |
| Schemas.IdSchemas | src/schemas/user-schemas.ts:7-9 | an id schema accepts exactly inputs whose id is a number |
| Schemas.InviteUserAccepts | src/schemas/user-schemas.ts:15-25 | accepted iff the email is a valid email string and the flag is absent or a number between 0 and 1 |
| Schemas.CreateWorkspaceAccepts | src/schemas/workspace-schemas.ts:12-15 | accepted iff the name is a string and the description is absent or a string |
| Schemas.RequiredFields | src/schemas/card-schemas.test.ts:58-64 | acceptance implies the required fields have their types: board id; title and column; card and column; board name |
| Schemas.ParseOwnFields | src/schemas/card-schemas.test.ts:99-115 | a record built from the schema's own fields, each with a conforming value, parses to itself |
| Schemas.SearchBoardAcceptsAnySubset | src/schemas/board-schemas.test.ts:28-53 | any subset of id, name and workspace is accepted and kept |
| Schemas.MoveCardOptionalFields | src/schemas/card-schemas.test.ts:99-115 | card and column, with or without lane and position, are accepted and kept |
| Schemas.ExpandOptions | src/schemas/board-schemas.test.ts:13-21 | `['workflows','settings']` is accepted and `['invalid_value']` rejected |
| Environment.GetRequiredEnvVar | src/config/environment.ts:35-41 | an error iff the variable is unset or empty, naming it; otherwise its value |
| Environment.GetBooleanEnvVar | src/config/environment.ts:43-47 | the default when unset; otherwise true iff the value lower-cases to "true" |
| Environment.BooleanIgnoresCase | src/config/environment.ts:46 | every letter-case spelling of "true" reads as true |
| Environment.GetNumberEnvVar | src/config/environment.ts:49-57 | the default when unset or empty; an error when no number parses; otherwise the parsed number |
| Environment.NumberRoundTrip | src/config/environment.ts:49-57 | a decimal integer is read back as itself |
| Environment.TrimAll | src/config/environment.ts:64 | each item is trimmed, in place |
| Environment.DropEmpty | src/config/environment.ts:65 | the result holds only non-empty items of the input, and every non-empty item of the input |
| Environment.DropEmptyAppend | src/config/environment.ts:65 | filtering a concatenation gives the concatenation of the filtered parts, so the kept items stay in their original order |
| Environment.DropEmptyOne | src/config/environment.ts:65 | a single item is kept iff it is not empty |
| Environment.GetCsvEnvVar | src/config/environment.ts:59-66 | the default when unset or empty; otherwise the cleaned items |
| Environment.CsvItemsClean | src/config/environment.ts:62-65 | every item read is non-empty, trimmed and comma-free |
| Environment.CsvOfJoin | src/config/environment.ts:62-65 | reading joined items gives the trimmed, non-empty ones |
| Environment.CsvRoundTrip | src/config/environment.ts:62-65 | clean items written comma-separated are read back unchanged |
| Environment.CleanItemsUnchanged | src/config/environment.ts:64-65 | trimming and filtering leave clean items unchanged |
| Environment.CommaSpaceSeparated | src/config/environment.test.ts:58-65 | "a, b" reads as `[a, b]` |
| Environment.GetTransportType | src/config/environment.ts:68-81 | stdio iff TRANSPORT lower-cases to "stdio" (the default); http for "http" or "sse"; otherwise an error quoting the value |
| Environment.TransportIgnoresCase | src/config/environment.test.ts:67-74 | letter case never changes the outcome |
| Environment.TransportDefault | src/config/environment.ts:69 | an unset TRANSPORT means stdio |
| Environment.Port | src/config/environment.ts:83 | never 0; 3000 when unset; a parse error escapes |
| Environment.DefaultAllowedHosts | src/config/environment.ts:84-91 | six entries: the three loopback names, then each of them followed by ":" and the port, in the same order |
| Environment.DefaultAllowedHostsSpec | src/config/environment.ts:84-91 | the three loopback names, each bare and with the port |
| Environment.OrDefault | src/config/environment.ts:101-102 | the value when set, else the fallback |
| Environment.LoadConfig | src/config/environment.ts:93-110 | loads iff PORT parses, URL and token are set, the default workspace id parses and TRANSPORT is known; a PORT error comes first, then a missing URL; a loaded config holds each setting as its reader gives it, the default workspace id included |
| Environment.LoadConfigDefaults | src/config/environment.test.ts:49-56 | with only URL and token set, every default applies |
| Environment.ValidateConfig | src/config/environment.ts:112-123 | succeeds iff the URL is valid and the trimmed token is non-empty, with the URL checked first |
| Environment.BlankTokenRejected | src/config/environment.test.ts:21-27 | a whitespace token is rejected with "BUSINESSMAP_API_TOKEN cannot be empty" |
| Logging.Rank | src/utils/logger.ts:11-17 | each level's number is at most 4 |
| Logging.RankOrdersLevels | src/utils/logger.ts:11-17 | DEBUG < INFO < WARN < ERROR < NONE, and no two levels share a number |
| Logging.NoneSilencesAll | src/utils/logger.test.ts:109-118 | at NONE no call writes |
| Logging.DebugEmitsAll | src/utils/logger.test.ts:82-87 | at DEBUG every call writes |
| Logging.EmitsMonotone | src/utils/logger.ts:34 | lowering the level never silences a call |
| Logging.SuccessFiltersLikeInfo | src/utils/logger.ts:69-73 | success is filtered exactly like info, which writes only at DEBUG or INFO |
| Logging.FormatShowsLevel | src/utils/logger.ts:78-79 | a line starts with "[timestamp] " and carries the prefix and the message |
| Logging.Logger.constructor | src/utils/logger.ts:22-24 | a new logger has the level given and no output |
| Logging.Logger.Default | src/utils/logger.ts:22 | without a level, the logger starts at INFO |
| Logging.Logger.SetLevel | src/utils/logger.ts:26-28 | the level changes and nothing is written |
| Logging.Logger.Log | src/utils/logger.ts:75-86 | exactly one formatted line is appended |
| Logging.Logger.DebugLog | src/utils/logger.ts:33-37 | one DEBUG line iff the level lets debug through |
| Logging.Logger.InfoLog | src/utils/logger.ts:42-46 | one INFO line iff the level lets info through |
| Logging.Logger.WarnLog | src/utils/logger.ts:51-55 | one WARN line iff the level lets warnings through |
| Logging.Logger.ErrorLog | src/utils/logger.ts:60-64 | one ERROR line iff the level lets errors through |
| Logging.Logger.SuccessLog | src/utils/logger.ts:69-73 | one SUCCESS line iff the level lets info through |
| Logging.SilentAtNone | src/utils/logger.test.ts:109-118 | at NONE one call of each kind writes nothing |
| Logging.AllAtDebug | src/utils/logger.test.ts:133-148 | at DEBUG the five calls write five lines, in order |
| Logging.SetLevelTakesEffect | src/utils/logger.test.ts:121-130 | an info call filtered at NONE is written after lowering to DEBUG |
| HttpServer.Server.constructor | src/server/http.ts:8-10 | a new server has an empty session table |
| HttpServer.Server.OpenStream | src/server/http.ts:16-45 | a started stream is filed under its id; a failed start removes the entry and answers 500, unless headers were already sent |
| HttpServer.Server.CloseStream | src/server/http.ts:30-33 | closing removes that session and only it |
| HttpServer.Server.PostMessage | src/server/http.ts:48-65 | 400 for a missing or empty id; 404 "Session not found" for an unknown one; otherwise the message is forwarded to that session's transport |
| HttpServer.Server.Health | src/server/http.ts:68-70 | answers with status "ok" and the version |
| HttpServer.SessionLifecycle | src/server/http.ts:16-65 | while open, messages are forwarded; after close they get 404; other sessions are unaffected |
| HttpServer.FailedStartLeavesNoEntry | src/server/http.ts:35-44 | after a failed start, a message for that session gets 404 |
| Startup.FirstSuccess | src/index.ts:26-30 | the first attempt that succeeds, with every earlier one failing; none iff all fail |
| Startup.ConnectWithRetry | src/index.ts:22-49 | between 1 and 3 attempts, stopping at the first success; one delay between each two attempts |
| Startup.FirstSuccessAt | src/index.ts:26-30 | a success after only failures is the first success |
| Startup.RunMain | src/index.ts:8-66 | an invalid configuration exits with code 1 before any attempt; three failures exit with the last error; a transport that fails to start exits with its error; the server runs on the configured transport exactly when validation, a connection attempt and the transport start all succeed |
| ResourceCount.GetCount | scripts/validate-resources.ts:14-20 | an array counts its items; otherwise an object with an array `cards` counts that; anything else has no count |
| ResourceCount.CardsCountLikeTheList | scripts/validate-resources.ts:16-17 | an object holding a list under `cards` counts like the list |
| ResourceCount.ScalarsHaveNoCount | scripts/validate-resources.ts:19 | null and primitives have no count |

## Left out

- The MCP SDK, Express, CORS and `app.listen` are not modelled. Neither are the SSE transport's own streaming and JSON-RPC handling. A transport is an id plus an opaque handle.
- Concurrency is left out. `Promise.all` over the board and its structure is modelled as two fetches in a fixed order, and a failure of either counts as the lookup failing.
- axios and HTTP are left out. Each upstream reply is an input to the model (a value, or a failure with an optional body).
- `JSON.stringify` is a function parameter, so serialised text is only compared, never computed.
- URL validity (`new URL`) and zod's email check are predicate parameters.
- Text.Lower: only ASCII letters are folded. Non-ASCII case mapping is not modelled.
- JsValue.Num: every JavaScript number is an integer here. Fractional numbers cannot be represented, so the model does not capture zod's number checks accepting them: 0.5 for `do_not_send_confirmation_email` (src/schemas/user-schemas.ts:17-21), fractional ids, positions and sizes.
- Startup.RunMain: constructing the MCP server object (src/index.ts:14) is taken never to throw; only validation, the connection attempts and the transport start can fail.
- Text.ParseInt: values are integers. Floating-point precision and the `-0` result are not modelled.
- `dotenv` and reading the environment are left out. The environment is a map given to the model.
- Timers are left out. The retry delay is only counted.
- Timestamps are left out. The ISO timestamp is a parameter of each logging call.
- The extra arguments passed to `console.error` are not modelled.
- Logger writes outside the logger itself are not modelled: in `search_board` (src/server/tools/board-tools.ts:165), in `initialize` and the health check (src/client/modules/utility-client.ts:15), during start-up (src/index.ts), in the HTTP server (src/server/http.ts:17-77) and in the configuration readers (src/config/environment.ts:76 and 125-127).
- The `LOG_LEVEL` environment variable read by the singleton logger is not modelled. Its `parseInt` can give a number outside the enum.
- src/client/modules/base-client.ts is not part of this model. The read-only guard's verdict is a parameter of `Requests.Perform`.
- src/server/tools/base-tool.ts is not part of this model. `createErrorResponse` and `createSuccessResponse` follow their tests.
- src/schemas/card-schemas.ts and src/schemas/board-schemas.ts are not part of this model. Those schemas hold only the fields their tests exercise.
- src/client/modules/user-client.ts and the workspace client are not part of this model. The user tools take the client's result as an input.
- The `addPredecessor` and `removePredecessor` client methods have no source here. The predecessor tools' client calls are left out (`CardTools.ClientCall` is None), but their parameters and responses are modelled.
- Prompts, resources, `mcp-server.ts` wiring and `scripts/verify-tools.ts` are not modelled.
- The test `config.transport.type === 'sse'` at src/index.ts:52 is dead code, because the configuration only ever holds stdio or http. The model branches on those two.
- `TypeError` and `Error` are both modelled as `Error` with a message.
- The SDK's refusal of a duplicate tool name is not modelled.
- Registry.ToolServer.RegisterEach: one call over a list of names stands for a run of `registerTool` calls.
- BoardSearch.SearchBoard and BoardSearch.Matching require every listed board to have a string name, as the board type declares. A board without one would throw inside `filter`; that case is not modelled.
- BoardSearch.SearchById: spreading a non-object board copies no properties (`Own`). The properties of strings and arrays are not modelled.
- Equality on objects (`===` on references) is not modelled. Board ids are compared as numbers.
- Schemas.Parse: a key present with the value `undefined` is treated as absent. Zod may keep such a key.
