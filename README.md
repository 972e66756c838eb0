# KaesyrLabs provisioning core in Dafny

This project models two pieces of decision logic from a Discord bot that
provisions game servers on a Pterodactyl hosting panel.

- **The panel client (`ptero.js`)** has four modelled parts:
  - the configuration check and base URL of its constructor;
  - the JSON body `createServer` posts;
  - the search for a free network allocation (`findFreeAllocation` and its `scanNode` helper);
  - the extraction of ip and port from a server-creation response (`extractIpPortFromServer`).
- **The credential-disclosure gate (`index.js`)** is the button branch of the
  interaction handler. It parses a `view_login_<id>` custom id, answers
  "Server not found." for an unknown record, builds the administrator list
  from `ADMIN_IDS`, lets only the owner or an administrator through, and
  formats the message that reveals the decrypted password.

Modules:

- `JsValue` (`js_value.dfy`) covers the JavaScript value semantics the code relies on:
  - JSON values, where `None` is `undefined`;
  - truthiness and `||`;
  - optional chaining;
  - the `a || b || c` fallback chains (`Resolve`, one per chain, over a constant list of property paths);
  - `String(v)`.
- `JsString` (`js_string.dfy`) covers `startsWith`, `indexOf`, `replace` with a string pattern, `split` and `trim`.
- `Ptero` (`ptero.dfy`) has the following parts:
  - the class `Ptero`, whose `base` is set by the constructor;
  - the search as methods, each proved against a function: the loops `ScanNode` (over one node's allocations, against `ScanNodeSpec`) and `ScanNodes` (over the node list, against `ScanNodesSpec`), and the straight-line `ScanPreferred` (against `PreferredScan`) and `FindFreeAllocation` (against `FindSpec`);
  - the request body and the response extraction as functions.
- `SearchProperties` (`search_properties.dfy`) states what the search promises in terms of the inventory itself. It covers:
  - which allocation is returned;
  - when the search gives up;
  - which GETs it issues.
- `LoginGate` (`login_gate.dfy`) holds the button handler as one function, `ViewLogin`, and its properties.

The panel is not called. What it answers during one search is a fixed `Panel` value:
- the node list of each location;
- the allocation list of each node, keyed by the id as it appears in the request path.

A key that is absent stands for a GET that fails. That failure ends the search with `TransportError(url)`, just as the rejected promise propagates in the source. The search also returns the URLs of the GETs it issued, in order. This trace is how the model states that a node is never queried.

Behaviours of the code that are easy to misread:

- **`extractIpPortFromServer` takes the first *truthy* value of its four allocation-list paths.**
  - An empty array is truthy in JavaScript, so an empty `relationships.allocations.data` ends the `||` chain.
  - A non-empty `attributes.allocations` after it is then never read (`Ptero.EmptyListStopsChain`).
  - A `null` first element throws a TypeError (`Ptero.NullFirstAllocationThrows`).
- **A node counts as exhausted when its id does not resolve, or when the panel answered its allocation list and every allocation is assigned.** Two consequences:
  - a node whose id does not resolve is skipped without a GET, so a location whose only nodes have unresolvable ids ends in 'No free allocations found' even if those nodes hold free allocations;
  - a failed allocation GET does not make a node exhausted: it aborts the whole search with that transport error.
- **A resolvable preferred node with no free allocation is fetched twice when every node before it in the list is exhausted too**: once as the preferred node and once more in the full scan (`SearchProperties.ExhaustedPreferredAskedTwice`). Otherwise the full scan stops at an earlier node, and the preferred node is fetched once.
- **The preferred-node lookup compares `String(attributes.id || id)`**, a shorter chain than the one `scanNode` resolves. A node known only by `attributes.uuid` is scanned under its uuid but is not picked by a preference naming that uuid; only the preference "undefined" matches it (`SearchProperties.UuidNodeNotPreferred`).

## Model

| member | source | states |
|---|---|---|
| JsValue.Or | ptero.js:80 | `a \|\| b` is truthy iff either operand is; it is the left operand when that one is truthy and the right operand otherwise |
| JsValue.ResolveFirstTruthy | ptero.js:80 | a fallback chain is truthy iff some path is; it yields the first truthy path's value, or the last path's value when none is truthy |
| JsValue.NatToStr | ptero.js:82 | the text of a number id in a URL is non-empty, all digits, without a leading zero |
| JsValue.NatToStrValue | ptero.js:82 | that text, read as a decimal numeral, denotes the number itself |
| JsValue.NatToStrInjective | ptero.js:82 | distinct non-negative numbers give distinct texts |
| JsValue.IntToStrInjective | ptero.js:82 | distinct integer ids give distinct texts, so distinct numeric node ids give distinct allocation URLs |
| JsString.IndexOf | index.js:72 | the index found is an occurrence and no earlier index is one; `None` only when the pattern occurs nowhere |
| JsString.ReplacePrefix | index.js:72 | replacing a prefix the string starts with by "" leaves exactly the rest of the string |
| JsString.Split | index.js:76 | the parts are never empty as a list, hold no separator, and joined with the separator give back the input |
| JsString.Trim | index.js:76 | the result neither starts nor ends with white space; it is the input without its leading and trailing white space |
| JsString.TrimIdempotent | index.js:76 | trimming twice is trimming once |
| LoginGate.TrimmedEntries | index.js:76 | an entry is in the result iff it is non-empty and is the trim of some part; no entry is empty or padded with white space |
| LoginGate.TrimmedEntriesNoComma | index.js:76 | pieces without a comma give entries without a comma |
| LoginGate.AdminList | index.js:76 | an id is an administrator iff it is non-empty and is the trim of some comma-separated piece of ADMIN_IDS; no entry is empty, holds a comma or is padded with white space |
| LoginGate.NoAdminsWhenUnset | index.js:76 | an unset or empty ADMIN_IDS gives an empty administrator list |
| LoginGate.NearMissNeverAdmin | index.js:78 | an empty id, one with a comma, or one padded with white space is never an administrator |
| LoginGate.NotAdminWithForeignChar | index.js:78 | an id holding a character that ADMIN_IDS does not contain is never an administrator |
| LoginGate.RecordId | index.js:72 | the custom id is the prefix `view_login_` followed by exactly the record id |
| LoginGate.ViewLogin | index.js:68-85 | ignored iff the custom id lacks the prefix; "Server not found." iff the suffix names no record; refused iff the requester is neither the owner nor in the administrator list; otherwise the message built from the record and the decrypted password |
| LoginGate.OnlyRevealDecrypts | index.js:79-83 | a reply that reveals nothing is the same for any decryption routine and any key, so decryption only affects the revealing reply |
| LoginGate.RevealMessageInOrder | index.js:84 | the reveal message holds the panel URL, the login, the password and the server name, in that order |
| LoginGate.AuthorisedSeesPassword | index.js:70-85 | for any stored record, its owner or any administrator is shown a message holding the panel URL, the login, the decrypted password and the server name, in order |
| LoginGate.SampleOwnerSeesPassword | index.js:77-85 | sample: the owner `user123` of record `rec1` sees the panel URL, login, password `hunter2` and server name, in order |
| LoginGate.IntruderForbidden | index.js:76-80 | for any stored record, a requester who is neither its owner nor in the administrator list is refused |
| LoginGate.SampleIntruderForbidden | index.js:76-80 | sample: `intruder` is refused for record `rec1` when ADMIN_IDS is "admin1, admin2" |
| LoginGate.ReplyTexts | index.js:70-81 | no reply for a foreign button; the reply is "Server not found." exactly when the record is missing, and the refusal text exactly when the requester is neither owner nor administrator |
| Ptero.StripTrailingSlashes | ptero.js:7 | the result is a prefix of the URL, the characters removed are all '/', and the result does not end in '/' |
| Ptero.TrailingSlashesIgnored | ptero.js:7 | however many slashes are appended to the URL, the base URL is the same |
| Ptero.Ptero.constructor | ptero.js:5-7 | `base` is the URL without its trailing slashes followed by `/api/application` |
| Ptero.Ptero.New | ptero.js:5-7 | construction fails with the configuration error iff the URL or the key is missing or empty; otherwise `base` is the normalised URL plus `/api/application` |
| Ptero.FirstFree | ptero.js:85-93 | the index returned is that of the first unassigned allocation, or the length of the list when all are assigned |
| Ptero.FindPreferred | ptero.js:99-102 | the index returned is that of the first node whose `String(attributes.id \|\| id)` equals `String(preferNodeId)`, or the length of the list |
| Ptero.Ptero.ScanNode | ptero.js:79-95 | a node whose id does not resolve gives no result and no GET; otherwise the node's allocations are fetched and the first unassigned one is returned, as `ScanNodeSpec` defines |
| Ptero.Ptero.ScanPreferred | ptero.js:98-107 | the preferred node is scanned only when a preference is given and some node matches it |
| Ptero.Ptero.ScanNodes | ptero.js:110-113 | the loop over the nodes returns the result of the first node whose scan finds an allocation or fails, and issues the GETs of the nodes up to it, as `ScanNodesSpec` defines |
| Ptero.Ptero.FindFreeAllocation | ptero.js:67-116 | the outcome and the GETs issued are those of `FindSpec`; `preferAllocationId` does not affect either |
| Ptero.Stringified | ptero.js:47 | a property of the sent object is the value given for it; an undefined one is absent |
| Ptero.ServerBodyFixedFields | ptero.js:35-43 | `environment` and `feature_limits` are always empty objects |
| Ptero.ServerBodyIdentity | ptero.js:29-32 | name, user, nest and egg are sent as given; an undefined one is not sent |
| Ptero.ServerBodyImage | ptero.js:33-34 | docker_image and startup are sent as given; an undefined one is not sent |
| Ptero.ServerBodyAllocation | ptero.js:44-45 | the allocation is sent as given, and `allocations` is the one-element list of that allocation (`[null]` when it is undefined) |
| Ptero.ServerBodyLimits | ptero.js:36-42 | the memory, disk and cpu limits are the arguments given; swap is always 0 and io always 500 |
| Ptero.ServerBodyKeys | ptero.js:28-46 | the body holds no key beyond the eleven of the literal |
| Ptero.ExtractIpPortFromServer | ptero.js:119-133 | takes the first truthy allocation-list path. A non-empty array gives ip and port of its first element (a null one throws). Any other truthy value falls back to `attributes.allocation`. When no path is truthy the result is null |
| Ptero.PanelShapeExtracted | ptero.js:120-125 | for the panel's own response shape, the ip and port of the first allocation are returned |
| Ptero.EmptyListStopsChain | ptero.js:122-132 | an empty relationship list ends the chain and the result is null, although `attributes.allocations` holds an allocation |
| Ptero.NullFirstAllocationThrows | ptero.js:124 | a null first allocation throws |
| SearchProperties.ScanNodeCases | ptero.js:80-94 | a node's scan issues one GET iff its id resolves; the scan stops the search iff the node is not exhausted; a failed GET is a transport error; a candidate is an unassigned allocation of the node, and it is the first unassigned one |
| SearchProperties.ScanNodesSkip | ptero.js:110-113 | a run of exhausted nodes before the rest of the list adds only its GETs and leaves the outcome to the rest |
| SearchProperties.ScanNodesFirst | ptero.js:110-113 | the first node that is not exhausted decides the loop, and only the nodes up to it are queried |
| SearchProperties.ScanNodesNone | ptero.js:110-115 | the loop finds nothing iff every node is exhausted, and then it has queried every resolvable node; any error it ends with is a transport error |
| SearchProperties.ScanNodesOffers | ptero.js:85-91 | a candidate the loop returns is an unassigned allocation of one of the nodes |
| SearchProperties.ScanNodesRequests | ptero.js:80-82 | every GET of the loop asks for the allocations of a resolvable node of the list |
| SearchProperties.PreferredUnique | ptero.js:99-102 | the preferred node is the first node that matches |
| SearchProperties.PreferredScanIdle | ptero.js:98-107 | when the preference picks nothing that could end the search, its scan costs at most the preferred node's GET |
| SearchProperties.PreferredNodeWins | ptero.js:98-106 | a matching preferred node with a free allocation returns its first free allocation, even if an earlier node has one, after exactly two GETs |
| SearchProperties.PreferredNodeFails | ptero.js:103-105 | a matching preferred node whose GET fails ends the search with that transport error |
| SearchProperties.ListOrderDecides | ptero.js:110-113 | otherwise the first node in list order that is not exhausted decides (its first unassigned allocation, or its failed GET), and no later node is queried |
| SearchProperties.NoFreeAllocationsIff | ptero.js:115 | 'No free allocations found' iff the location's node list was fetched and every node is exhausted |
| SearchProperties.ReturnedAllocationIsFree | ptero.js:86-91 | a returned allocation is an unassigned allocation of a node of the location |
| SearchProperties.RequestsTargetResolvableNodes | ptero.js:75-82 | the first GET is the location's node list; every other GET asks for a resolvable node's allocations, so a node whose id does not resolve is never queried |
| SearchProperties.ExhaustedPreferredAskedTwice | ptero.js:103-113 | a resolvable preferred node with every allocation assigned, preceded in the list only by exhausted nodes, has its allocations fetched as the second GET and again later in the trace |
| SearchProperties.UuidNodeNotPreferred | ptero.js:80-101 | a node known only by `attributes.uuid` is scanned under that uuid but is not matched by the same preference; the preference "undefined" matches it |
| SearchProperties.SingleFreeAllocation | ptero.js:67-116 | one location with one node holding one free allocation `A1` at 1.2.3.4:25565 returns that allocation |
| SearchProperties.SingleFreeAllocationRequests | ptero.js:75-82 | that search issues exactly two GETs: the location's node list, then the node's allocations |

## Left out

- The axios client, the authorization headers and the 30-second timeout (ptero.js:8-16). These are HTTP transport. A GET is a lookup into the `Panel` value, and any failure is the absent key.
- `createUser`, `getNodesForLocation`, `getAllocationsForNode` and the POSTs of `createUser`/`createServer` (ptero.js:19-61). These are HTTP calls. Only the body `createServer` sends is modelled.
- The response envelopes `nodesResp.data?.data \|\| []` and `allocResp.data?.data \|\| allocResp.data \|\| []` (ptero.js:76, 83). The inventory holds the lists already unwrapped, and list elements are JSON objects. The source also accepts other elements, which `seq<Obj>` cannot express: a primitive allocation element (`5`, `"x"`, `false`, `[]`) has no `assigned` or `server_id`, so the source returns it as a free allocation with undefined id, ip and port; a primitive node element resolves no id and is skipped without a GET; only a `null` element throws.
- JSON numbers are integers. Fractions, NaN and the text of non-integral numbers in `String(v)` are not modelled.
- Three value representations are narrower than JavaScript's. None of them changes a property stated here:
  - a stored `null` record field renders as `null` in the reveal template, but `ServerRecord` fields are `Option<string>` and cannot hold null;
  - `String(n)` switches to exponent notation from 1e21 up and loses precision above 2^53, while `IntToStr` writes every integer in full;
  - strings are sequences of Unicode scalar values rather than UTF-16 code units, so a lone surrogate cannot be expressed.
- The Discord client, `deferReply`/`editReply`, command registration and the catch-all error reply (index.js:29-66, 87-93) are I/O.
- `ServerModel.findById` (index.js:73) is a map from record id to record. A malformed id, which Mongo rejects with an exception that reaches the catch-all reply, is not modelled.
- `decrypt` is a function parameter. Its cryptography, and a failed decryption (which reaches the catch-all reply), are not modelled. The `utils/crypto` module, `commands/create` and `commands/panel` are not part of this model.
- winston logging and the environment warnings (index.js:15-27).
- The race between two concurrent provisioning requests. The inventory is read-only within one search.
- `preferAllocationId` is tested by an `if` with an empty branch (ptero.js:69-72), so it has no effect on the outcome or the GETs. `FindSpec` does not take it.
- Ptero.Ptero.constructor: requires a non-empty URL and key instead of throwing. The throwing path is `Ptero.Ptero.New`.
- Ptero.Ptero.FindFreeAllocation: the source returns as soon as the preferred node yields a result. The model's method instead checks whether the preferred scan stopped the search (`Stops`), and if so never runs `ScanNodes`, then builds the outcome in one place. The outcome and the order of GETs are the same. The loop in `ScanNodes` keeps its early return.
