# Fraud-investigation graph: a verified model

The system records users, who hold contact details and payment methods, and payments
between them. It keeps both in a graph database and links entities that share an
attribute: two users who share an email address, a phone number, a postal address or a
payment method, and two transactions that come from the same IP address or device. A
browser front end lists, searches, filters and exports the data. It also draws two
interactive graphs: a user's neighbourhood and a transaction's related transactions.

This project models the rules around the database statements as Dafny code and proves
properties of them:

- The write path of the user and transaction services runs against an in-memory
  store. `GraphStore.Store` has users and transactions by id, in creation order, and a
  list of labelled edges. `GraphModel` gives each Cypher statement its meaning as a
  function. User detection runs the payment-method loop as intended, not as written
  (Findings row 1).
- The HTTP controllers are decision functions. They map a request body and the
  service's outcome to a status and a body.
- The driver-value converter walks a value tree and reshapes it.
- The front end has data helpers: validators, search and filters, risk colours, type
  counts, error classification, CSV and JSON export, and the assembly of the graph
  element lists with the shared-edge de-duplication.

Modules, one file each:

| module | file | models |
|---|---|---|
| `Wrappers` | wrappers.dfy | `Option` and `Result` |
| `Text` | text.dfy | ASCII lower-casing, substring search, first-occurrence replace, lexicographic order, joining, integer rendering |
| `Seqs` | seqs.dfy | distinctness, occurrence counts, order-preserving filter, first-appearance de-duplication |
| `DriverValues` | driver_values.dfy | driver values, `convertNeo4jIntegers`, `recordsToObjects` |
| `GraphModel` | graph_model.dfy | records, edges, MERGE, scans, detection plans, read-backs |
| `GraphStore` | graph_store.dfy | the store class: the service methods |
| `Responses` | responses.dfy | the response shapes shared by the controllers |
| `UserController`, `TransactionController`, `RelationshipController` | user_controller.dfy, transaction_controller.dfy, relationship_controller.dfy | validation, status mapping, risk ranking, path shaping |
| `FrontValues` | front_values.dfy | optional chaining, `x \|\| fallback`, `String(x)`, `Object.values` |
| `FrontUtils` | front_utils.dfy | the helpers of `utils.js` |
| `Csv` | csv.dfy | CSV quoting and its read-back (RFC 4180, section 2, rules 5 to 7) |
| `FrontUi` | front_ui.dfy | CSV export rows, list filters, JSON export |
| `GraphElements` | graph_elements.dfy | the element collection of a Cytoscape graph |
| `GraphExplorer` | graph_explorer.dfy | the network explorer view (class `Explorer`) |
| `GraphTransactions` | graph_transactions.dfy | the transaction relationship view (class `TransactionPanel`) |

Conventions of the model:

- **Node order.** A MATCH over all nodes visits them in creation order.
- **MERGE on an edge.** It adds the edge unless an identical one is already there:
  same type, same endpoints and same properties. For the undirected shared-attribute
  patterns, either direction counts as the same endpoints.
- **Parameters for what the model does not define.** The clock (`now`), `JSON.stringify`
  and `JSON.parse` (`Json`, `Parser`) are parameters.
- **Amounts.** A transaction amount is an integer.
- **The graph library.** The front end's Cytoscape collection is a sequence of
  elements. An element whose id is taken is not added, and neither is an edge whose
  ends are not both nodes (`GraphElements.Accepts`).
- **Node types in the explorer.** A loaded transaction's own `type` property replaces the
  node type `transaction` (the `...tx` spread comes last). A transaction written by the
  service has a type (`TRANSFER` by default) unless it was given an explicit `null`, so the `node[type="transaction"]` style rule
  (frontend/js/utils.js:33) does not match such nodes.

## Model

| member | source | states |
|---|---|---|
| GraphModel.UpsertTwiceKeepsCreation | backend/src/services/userService.js:13-31 | A second write of the same id keeps the first write's `createdAt` and sets `updatedAt` to its own time. A first write has no `updatedAt`. Every other field is the second write's. |
| GraphModel.MergeUndirected | backend/src/services/userService.js:128-135 | After an undirected MERGE, an edge matching the pattern in one direction or the other is present. |
| GraphModel.MergeDirected | backend/src/services/transactionService.js:51-61 | After a directed MERGE, the edge is present. |
| GraphModel.LinkAllSpec | backend/src/services/userService.js:126-144 | A scan statement only appends edges. Each appended edge links a partner. Afterwards every partner among the candidates is linked. |
| GraphModel.UserScanLinksExactlyPartners | backend/src/services/userService.js:126-162 | A user scan keeps the old edges as a prefix. Each new edge runs from the user to another user, never itself, with an equal attribute or a payment-method list holding the method, and carries that attribute or method. Every matching user ends up linked. |
| GraphModel.RunUserPlanAppend | backend/src/services/userService.js:88-123 | Running two lists of scans one after the other is the same as running their concatenation. |
| GraphModel.UserDetectionRunsPlan | backend/src/services/userService.js:88-123 | Detection step by step (email, phone, address, then the payment-method loop) applies the stored record's plan in order. This is the intended loop, not the code as written: see Findings row 1. |
| GraphModel.PaymentMethodRunsArePlan | backend/src/services/userService.js:119-123 | The payment-method loop runs one payment scan per method, in list order. This is the intended loop, not the code as written: see Findings row 1. |
| GraphModel.ScanWhenIsPlan | backend/src/services/userService.js:89-117 | A scalar scan runs exactly when the value is a non-empty string. |
| GraphModel.RecordPlanShape | backend/src/services/userService.js:88-123 | The plan has at most 3 + \|paymentMethods\| scans. It starts with the email, phone and address scans, in that order and each only for a non-empty value. It ends with one scan per payment method, in list order. |
| GraphModel.UserViewFields | backend/src/services/userService.js:68-81 | A stored user read back through the converter keeps its email, phone and address. Its payment methods come back as an index-keyed object whose values are the stored list. |
| GraphModel.UserViewTruthy | backend/src/services/userService.js:84-117 | The truthy email, phone and address that detection reads from the read-back user are the stored ones, and so are the stored payment methods. |
| GraphModel.PaymentMethodsReadBack | backend/src/services/databaseService.js:140-158 | The read-back `paymentMethods` is an object, not an array, and `Object.values` of it is the stored list. |
| GraphModel.StringFieldReadBack | backend/src/services/databaseService.js:157-169 | A string property other than `metadata` reads back unchanged. |
| GraphModel.DetectionPlanOfStoredUser | backend/src/services/userService.js:84-123 | The intended detection plan of a read-back user is the stored record's plan. |
| GraphModel.AsWrittenNeverScansPaymentMethods | backend/src/services/userService.js:119-123 | As written, detection of a stored user runs only attribute scans and never a payment-method scan. |
| GraphModel.AsWrittenMissesPaymentScan | backend/src/services/userService.js:119-123 | A concrete user with the payment method `card-1`: the intended plan scans it and the written plan does not. |
| GraphModel.TransactionScanLinksExactlyPartners | backend/src/services/transactionService.js:163-206 | For an attribute type other than `ipAddress` or `deviceId`, the edges are unchanged. Otherwise new edges are appended only to other transactions with an equal value, and every such transaction is linked. |
| GraphModel.TransactionViewFields | backend/src/services/transactionService.js:115-161 | The read-back transaction carries the stored IP address and device id, when truthy. |
| GraphModel.TransactionViewLookup | backend/src/services/transactionService.js:115-136 | `fromUserId` and `toUserId` added to the read-back transaction hide none of its stored fields. |
| GraphModel.WithFlowEdges | backend/src/services/transactionService.js:51-61 | After a transaction write, the edge list holds the `SENT_TO` edge fromUser→t and the `RECEIVED_FROM` edge t→toUser. Both carry the amount, currency and timestamp. At most two edges are added and the old ones stay as a prefix. |
| GraphModel.MissingUserMessagesSayDoesNotExist | backend/src/services/transactionService.js:26-34 | Both existence errors contain " does not exist". |
| GraphStore.MergeKeepsJoins | backend/src/services/userService.js:128-135 | Merging an edge between existing, distinct nodes keeps every edge between existing nodes. |
| GraphStore.UpsertKeepsIndex | backend/src/services/userService.js:20-31 | An upsert keyed by id keeps ids unique in creation order, and each record stays under its own id. |
| GraphStore.Store.constructor | backend/src/services/userService.js:1-4 | The store starts empty and valid. |
| GraphStore.Store.GetUserById | backend/src/services/userService.js:68-81 | null exactly when no user has the id. Otherwise the user's converted properties. |
| GraphStore.Store.UserExists | backend/src/services/transactionService.js:241-249 | True exactly when a user has the id. |
| GraphStore.Store.GetTransactionById | backend/src/services/transactionService.js:115-136 | null exactly for an unknown id. Otherwise the converted properties with the ids of the flow-edge users. |
| GraphStore.Store.GetUserRelationships | backend/src/services/userService.js:164-199 | null exactly for an unknown id. Otherwise the user, exactly the shared-attribute edges at it in either direction, and exactly the flow edges at it. |
| GraphStore.Store.GetTransactionRelationships | backend/src/services/transactionService.js:208-239 | null exactly for an unknown id. Otherwise the transaction and exactly its `SHARED_IP` and `SHARED_DEVICE` edges. |
| GraphStore.Store.CreateOrUpdateUser | backend/src/services/userService.js:6-52 | Exactly one user has the id, holding the upserted record. A new id is appended to the creation order. Transactions are unchanged. The edges are the old ones after detection for that user, with the intended payment-method loop (see Findings row 1). The result is the converted node. |
| GraphStore.Store.DetectAndCreateSharedAttributeRelationships | backend/src/services/userService.js:84-124 | An unknown user changes no edge. Otherwise the edges are those after the email, phone, address and payment-method scans of the stored user. This is the intended loop, not the code as written: see Findings row 1. |
| GraphStore.Store.CreateSharedAttributeRelationship | backend/src/services/userService.js:126-144 | The edges are those after the attribute scan. The store stays valid: no self-links, and every edge joins existing nodes. |
| GraphStore.Store.CreateSharedPaymentMethodRelationship | backend/src/services/userService.js:146-162 | The edges are those after the payment-method scan, and the store stays valid. |
| GraphStore.Store.RunUserScan | backend/src/services/userService.js:128-135 | The loop that visits candidates in node order and merges an edge to each partner yields the scan function's edge list. |
| GraphStore.Store.ScanSharedAttributes | backend/src/services/userService.js:88-123 | The three truthy-guarded scalar scans in order, then the payment-method loop. This is the intended loop, not the code as written: see Findings row 1. |
| GraphStore.Store.CreateOrUpdateTransaction | backend/src/services/transactionService.js:8-91 | A missing sender fails with the sender's message and leaves the store unchanged. This check comes before the one for the recipient, which behaves the same way. Otherwise the node is upserted with the defaults and the flow edges are merged. Detection runs and the converted node is returned. Users are unchanged. |
| GraphStore.Store.DetectAndCreateTransactionRelationships | backend/src/services/transactionService.js:138-161 | An unknown transaction changes nothing. Otherwise the IP scan runs when the IP is truthy, then the device scan when the device id is truthy. |
| GraphStore.Store.CreateSharedAttributeTransactionRelationship | backend/src/services/transactionService.js:163-206 | The edges are those after the transaction scan, and an unknown attribute type issues no statement. |
| GraphStore.Store.RunTransactionScan | backend/src/services/transactionService.js:170-185 | The loop over the other transactions in node order merges exactly the links that the scan function gives. |
| GraphStore.ConvertUserNode | backend/src/services/userService.js:44 | Converting a user node's properties gives the user view. |
| GraphStore.ConvertTransactionNode | backend/src/services/transactionService.js:80-83 | Converting a transaction node's properties gives the converted properties. |
| DriverValues.ConvertNeo4jIntegers | backend/src/services/databaseService.js:137-175 | The loop that fills a fresh object key by key yields `Converted`. An object or array becomes an object, and any other value is returned unchanged. At top level the core only passes records' property maps to it. |
| DriverValues.ConvertKeepsKeys | backend/src/services/databaseService.js:139-142 | The output has exactly the input's keys, in order. |
| DriverValues.ArraysBecomeIndexKeyed | backend/src/services/databaseService.js:140-142 | An array comes out as the object keyed "0", "1", … holding the converted items. |
| DriverValues.ConvertedArrayKeys | backend/src/services/databaseService.js:140-142 | The keys of a converted array are the decimal indices, in order. |
| DriverValues.LookupConverted | backend/src/services/databaseService.js:139-170 | Looking a key up after conversion is converting the value found under it. |
| DriverValues.ConvertEntry | backend/src/services/databaseService.js:145-169 | Outside `metadata`, an entry never stays an array, an Integer or a temporal value. |
| DriverValues.ConvertedIsPlain | backend/src/services/databaseService.js:145-169 | No Integer and no temporal value is left at any depth, provided that what `JSON.parse` yields is plain. |
| DriverValues.PrimitivesCopied | backend/src/services/databaseService.js:167-169 | null, booleans, numbers, and strings other than `metadata` are copied as they are. |
| DriverValues.MetadataParsed | backend/src/services/databaseService.js:159-166 | A `metadata` string becomes its parsed value, or `{}` when parsing fails. |
| DriverValues.RecordObjectKeepsKeys | backend/src/services/databaseService.js:120-134 | With distinct record keys, the object has the record's keys in order. A value with `properties` is replaced by them. |
| DriverValues.RecordsToObjects | backend/src/services/databaseService.js:120-134 | One object per record, in order. |
| Responses.RelationshipsResponse | backend/src/controllers/relationshipController.js:8-56 | 404 with the given message exactly for a null result. 200 with the data exactly for a result. 500 with the error's message exactly for a failure. |
| Responses.ListResponse | backend/src/controllers/userController.js:43-58 | 200 exactly on success, with `count` equal to the length of `data`. Otherwise 500 with the message. |
| UserController.TestEmailIff | backend/src/controllers/userController.js:19-25 | The address test accepts exactly the strings with no whitespace, exactly one `@`, a non-empty local part, and a domain with a `.` that has non-empty text on both sides. |
| UserController.CreateOrUpdateUserResponse | backend/src/controllers/userController.js:6-41 | A falsy id, name or email gives 400 "Missing required fields", checked before the address format. A malformed address gives 400. Otherwise the service decides: 201 with the data, or 500 with the error's message. |
| UserController.RejectionIgnoresService | backend/src/controllers/userController.js:11-25 | A rejected request's answer does not depend on the service: it is not called. |
| UserController.SampleAddressAccepted | backend/src/controllers/userController.js:19-29 | `a@b.c` with all fields given reaches the service and gives 201. |
| UserController.MalformedAddressesRejected | backend/src/controllers/userController.js:19-25 | `a@b` and `a b@c.d` are rejected as an invalid email format. |
| UserController.UserRelationshipsResponse | backend/src/controllers/userController.js:61-84 | 404 "User not found" exactly for a null result. 200 with the data for a result. 500 on failure. |
| UserController.UnknownUserIsNotFound | backend/src/controllers/userController.js:61-84 | Against the store, the endpoint answers 404 exactly for an unknown user id. |
| TransactionController.Validate | backend/src/controllers/transactionController.js:11-32 | The checks run in order: missing fields, non-positive amount, same user. The request passes exactly when all three pass. |
| TransactionController.ZeroAmountIsMissing | backend/src/controllers/transactionController.js:11-16 | An amount of 0 is reported as a missing field. |
| TransactionController.AsWrittenAcceptsUnparsableAmount | backend/src/controllers/transactionController.js:19-24 | The written amount check lets the amount "abc" through. The intended check rejects it. |
| TransactionController.ErrorResponse | backend/src/controllers/transactionController.js:43-55 | 404 exactly when the message contains "does not exist", otherwise 500. In both cases the body carries the message. |
| TransactionController.MissingUserIsNotFound | backend/src/controllers/transactionController.js:43-49 | Both of the service's existence errors are answered with 404. |
| TransactionController.CreateOrUpdateTransactionResponse | backend/src/controllers/transactionController.js:6-56 | 400 with the first failing check's message exactly when validation fails. 201 with the data exactly when validation passes and the service succeeds. Otherwise the error classification applies. A non-numeric amount is rejected as not positive, which is the intended check, not the code as written: see Findings row 2. |
| TransactionController.RejectionIgnoresService | backend/src/controllers/transactionController.js:11-34 | A rejected request does not depend on the service. |
| TransactionController.UnknownSenderIsNotFound | backend/src/controllers/transactionController.js:34-49 | A valid request naming an unknown sender or recipient gets 404 with the service's message. |
| TransactionController.TransactionRelationshipsResponse | backend/src/controllers/transactionController.js:77-100 | 404 "Transaction not found" exactly for a null result. 200 for a result. 500 on failure. |
| TransactionController.UnknownTransactionIsNotFound | backend/src/controllers/transactionController.js:77-100 | Against the store, the endpoint answers 404 exactly for an unknown transaction id. |
| TransactionController.TransactionsByUserResponse | backend/src/controllers/transactionController.js:102-119 | On success, 200 with the list and `count` equal to its length. Otherwise 500. |
| RelationshipController.FlaggedProfiles | backend/src/controllers/relationshipController.js:151-158 | Each flagged row's profile is kept. Every kept profile comes from a row with sharedConnections > 2 or transactionCount > 5 and is scored `2 * sharedConnections + transactionCount`. |
| RelationshipController.Insert | backend/src/controllers/relationshipController.js:159 | Inserting into a list sorted by descending score keeps it sorted and adds exactly the one entry. |
| RelationshipController.SortByScore | backend/src/controllers/relationshipController.js:159 | A permutation sorted by descending score. |
| RelationshipController.LimitOfSorted | backend/src/controllers/relationshipController.js:159-160 | `LIMIT k` of a sorted list keeps at most k entries, stays sorted, and is a sub-multiset that outscores every entry left out. |
| RelationshipController.HighRiskUsers | backend/src/controllers/relationshipController.js:145-179 | At most 10 profiles, sorted by descending score, drawn from the flagged rows. They are all of them when there are at most 10. Every flagged row left out scores no more than every listed one. |
| RelationshipController.HighRiskMembership | backend/src/controllers/relationshipController.js:151-160 | Every listed profile is a flagged row with the stated score. With at most 10 flagged rows, a row is listed exactly when it is flagged. |
| RelationshipController.Candidates | backend/src/controllers/relationshipController.js:147-150 | One row per stored user, with the number of distinct users it shares an attribute with and the number of distinct transactions it takes part in. |
| RelationshipController.StoreRiskProfiles | backend/src/controllers/relationshipController.js:145-179 | Over the store, every listed user's counts are its distinct partners and transactions, and its score is computed from them. |
| RelationshipController.ConnectionPathResponse | backend/src/controllers/relationshipController.js:181-227 | 400 exactly when an id is missing. 500 exactly for a failed query. Otherwise 200, with `connected` true exactly when a path came back, and then the first path and its number of hops. |
| RelationshipController.MissingIdsRunNoQuery | backend/src/controllers/relationshipController.js:185-190 | Without both ids, the answer does not depend on the query. |
| RelationshipController.PathLengthBounded | backend/src/controllers/relationshipController.js:193-218 | With paths within the `*..5` bound, a reported path length is at most 5. The bound comes from the Cypher pattern `*..5`. It is assumed of the paths the database returns, not derived. |
| FrontUtils.MissingFields | frontend/js/utils.js:249-271 | A required field is listed exactly when it is falsy. |
| FrontUtils.NoneMissing | frontend/js/utils.js:249-271 | Nothing is missing exactly when every required field is truthy. |
| FrontUtils.ValidateUserData | frontend/js/utils.js:249-259 | True exactly when id, name and email are all truthy. |
| FrontUtils.ValidateTransactionData | frontend/js/utils.js:261-271 | True exactly when id, amount, fromUserId and toUserId are all truthy. |
| FrontUtils.FieldIncludesIff | frontend/js/utils.js:274-295 | `includes` on the lowercased field is the existence of an occurrence of the term. |
| FrontUtils.Search | frontend/js/utils.js:274-295 | An empty term keeps the list. Otherwise an item is kept exactly when one of the keys mentions the lowercased term. The result is no longer than the input. |
| FrontUtils.SearchAppend | frontend/js/utils.js:274-295 | The search keeps input order: searching a concatenation concatenates the searches. |
| FrontUtils.SearchUsers | frontend/js/utils.js:274-283 | The identity for an empty term. Otherwise exactly the users whose lowercased name, email or id contains the lowercased term. |
| FrontUtils.SearchTransactions | frontend/js/utils.js:285-295 | The same over id, description, fromUserId and toUserId. |
| FrontUtils.FilterByMetadata | frontend/js/utils.js:297-305 | The identity for a falsy filter. Otherwise exactly the items whose metadata field equals it. |
| FrontUtils.FilterByMetadataAppend | frontend/js/utils.js:297-305 | The filter keeps input order. |
| FrontUtils.FilterUsersByRisk | frontend/js/utils.js:297-300 | The identity for a falsy level. Otherwise exactly the users with that `metadata.riskLevel`. |
| FrontUtils.FilterTransactionsByCategory | frontend/js/utils.js:302-305 | The identity for a falsy category. Otherwise exactly the transactions with that `metadata.category`. |
| FrontUtils.GetRiskColor | frontend/js/utils.js:223-230 | low, medium and high each get their own colour, and anything else gets `#667eea`. Each colour is returned exactly for its level. |
| FrontUtils.Bump | frontend/js/utils.js:369 | Incrementing a key adds it once at the end when it is new, adds one to its count, changes no other count, and adds one to the total. |
| FrontUtils.TallyNames | frontend/js/utils.js:365-381 | The counted keys are the distinct keys in order of first appearance. |
| FrontUtils.TallyCounts | frontend/js/utils.js:365-381 | Each key is counted as often as it occurs. |
| FrontUtils.TallyTotal | frontend/js/utils.js:365-381 | The counts add up to the number of elements. |
| FrontUtils.CountTypes | frontend/js/utils.js:365-381 | The counting loop yields the distinct keys in first-appearance order, with each key's count equal to its number of occurrences and a total equal to the input length. |
| FrontUtils.UntypedCountedAsUnknown | frontend/js/utils.js:368 | An element without a truthy type is counted under `unknown`. |
| FrontUtils.HandleApiError | frontend/js/utils.js:416-448 | The first matching class applies, in this order: network (a TypeError mentioning "fetch"), then status 404, then status ≥ 500, then unknown. Each class has its own message, and the details are the error's message. |
| FrontValues.OrNA | frontend/js/ui.js:334-342 | `x \|\| 'N/A'` is the value when it is truthy and `N/A` otherwise. |
| FrontValues.ObjectValues | frontend/js/ui.js:342 | `Object.values` gives an array's items, an object's field values in order, and a string's characters. |
| FrontValues.RenderReadsBack | frontend/js/ui.js:346-348 | A string renders as itself, and a natural number renders as digits that read back as it. |
| Csv.Quote | frontend/js/ui.js:346-348 | A quoted field starts and ends with a double quote. |
| Csv.ReadEscaped | frontend/js/ui.js:346-348 | Unquoting an escaped field gives the field back. |
| Csv.ReadEncodedRecord | frontend/js/ui.js:346-348 | Reading an encoded record gives its fields back and stops at the line break or the end. |
| Csv.TableRoundTrip | frontend/js/ui.js:323-384 | A non-empty table of non-empty records reads back exactly from its encoding. |
| FrontUi.UserRow | frontend/js/ui.js:327-343 | A user record has the header's 9 fields, with the account age and the joined payment methods in their columns. |
| FrontUi.TransactionRow | frontend/js/ui.js:355-378 | A transaction record has the header's 15 fields, with the three metadata fields in their columns. |
| FrontUi.Table | frontend/js/ui.js:333-348 | The header, then one record per item in input order. |
| FrontUi.UsersCsvReadsBack | frontend/js/ui.js:323-349 | A non-empty user export reads back as the header and one record per user. An empty one is "No users found", which is not a table. |
| FrontUi.TransactionsCsvReadsBack | frontend/js/ui.js:351-384 | The same for transactions, with "No transactions found". |
| FrontUi.ZeroAccountAgeIsNA | frontend/js/ui.js:340 | An account age of 0 is exported as `N/A`. |
| FrontUi.PaymentMethodsJoined | frontend/js/ui.js:342 | The index-keyed payment methods are exported joined by `; `. |
| FrontUi.FilterList | frontend/js/ui.js:242-281 | An item is shown exactly when a search key mentions the lowercased input and the menu choice is empty or matches. |
| FrontUi.FilterListAppend | frontend/js/ui.js:242-281 | The list filter keeps input order. |
| FrontUi.FilterUsers | frontend/js/ui.js:242-260 | An item is shown exactly when name, email or id mentions the input, and the risk choice is empty or equals `metadata.riskLevel`. |
| FrontUi.FilterTransactions | frontend/js/ui.js:262-281 | The same over id, description, fromUserId and toUserId, with `metadata.category`. |
| FrontUi.EmptyFiltersKeepNamedUsers | frontend/js/ui.js:243-257 | With an empty search and no choice, every user with a string name is shown. |
| FrontUi.ExportToJson | frontend/js/ui.js:308-315 | The document holds both lists, the date, and totals equal to the list lengths. |
| GraphElements.WithElement | frontend/js/graph-explorer.js:552-553 | An element is added at the end exactly when the collection accepts it. Otherwise the collection is unchanged. |
| GraphElements.WithElementsAppend | frontend/js/graph-explorer.js:552-553 | Adding a list in two parts is adding it at once. |
| GraphElements.WithElementsValid | frontend/js/graph-explorer.js:552-553 | Additions keep element ids unique and every edge between two nodes. |
| GraphElements.WithElementsExtends | frontend/js/graph-explorer.js:552-553 | Elements already present stay in their places. |
| GraphElements.WithElementsFrom | frontend/js/graph-explorer.js:552-553 | Whatever is in the collection was there before or was offered. |
| GraphExplorer.SharedEdge | frontend/js/graph-explorer.js:235-270 | The shared edge runs from the main user to the related one. Its label is the attribute type with the value when that is truthy, and with the payment method otherwise. |
| GraphExplorer.SharedElements | frontend/js/graph-explorer.js:235-270 | Two elements per shared entry. |
| GraphExplorer.FlowEdges | frontend/js/graph-explorer.js:317-369 | For `SENT_TO`, the edges run main user→txn→other user. For any other type they run other user→txn→main user. |
| GraphExplorer.FlowStep | frontend/js/graph-explorer.js:273-370 | Per flow entry: the transaction node, the other user, then two edges that pass through the transaction and join the main user and the other user. |
| GraphExplorer.FlowElements | frontend/js/graph-explorer.js:273-370 | Four elements per flow entry. |
| GraphExplorer.NeighbourhoodInParts | frontend/js/graph-explorer.js:212-383 | The main user heads the collection, followed by the shared part and the flow part in that order. |
| GraphExplorer.UserRecordNodes | frontend/js/graph-explorer.js:401-418 | One user node per loaded user, in order. |
| GraphExplorer.TransactionRecordNodes | frontend/js/graph-explorer.js:421-431 | One transaction node per loaded transaction, in order, with the transaction's id and label. Its type is `transaction` only when the record has no `type` of its own. Otherwise the `...tx` spread writes the record's type over it. |
| GraphExplorer.StoredTypeReplacesTransactionKind | frontend/js/graph-explorer.js:421-431 | A transaction stored with the default type `TRANSFER` becomes a node of type `TRANSFER`, not `transaction`. |
| GraphExplorer.RecordFlowEdges | frontend/js/graph-explorer.js:434-458 | The edges `edge-<id>` and `edge-<id>-to` are added exactly when both user ids are truthy. |
| GraphExplorer.AllFlowEdgesNeedBothUsers | frontend/js/graph-explorer.js:434-458 | Every flow edge comes from a transaction with both user ids. |
| GraphExplorer.CanonicalIdSymmetric | frontend/js/graph-explorer.js:503-508 | The canonical id is the same for (a, b) and (b, a) with the same type. |
| GraphExplorer.EdgeLabel | frontend/js/graph-explorer.js:520-526 | The label starts with the type. It is longer than the type exactly when the value is truthy, and then continues with `: ` and the value. |
| GraphExplorer.QueueAllGood | frontend/js/graph-explorer.js:496-549 | No two queued edges share a canonical id. The seen-set holds exactly the queued ids. Every queued edge joins two elements already in the graph. |
| GraphExplorer.ReverseEntrySkipped | frontend/js/graph-explorer.js:503-513 | Once a's entry for b is processed, b's entry for a with the same type adds nothing. |
| GraphExplorer.Explorer.constructor | frontend/js/graph-explorer.js:5-6 | An empty graph with the loading flag clear. |
| GraphExplorer.Explorer.AddEach | frontend/js/graph-explorer.js:552-553 | Adding a list element by element is the collection's addition of the list. |
| GraphExplorer.Explorer.AddFlow | frontend/js/graph-explorer.js:273-370 | One flow entry adds its step. The other user is added only when no element has its id. |
| GraphExplorer.Explorer.AddFlows | frontend/js/graph-explorer.js:273-370 | The flow loop adds the flow part. |
| GraphExplorer.Explorer.UpdateGraphWithSharedAttributes | frontend/js/graph-explorer.js:212-383 | The graph is rebuilt from empty with the neighbourhood's elements, and the main user comes first. |
| GraphExplorer.Explorer.AddSharedAttributeEdges | frontend/js/graph-explorer.js:481-566 | While the flag is set, a call returns at once and changes nothing. Otherwise the queued, de-duplicated edges are added and the flag is clear at the end. |
| GraphExplorer.Explorer.BuildInteractiveGraph | frontend/js/graph-explorer.js:391-478 | The graph holds the user nodes, then the transaction nodes (typed as `TransactionRecordNodes` states) and flow edges, then the shared edges between loaded users. |
| GraphTransactions.Flow | frontend/js/graph-transactions.js:137-158 | Two flow edges, from the sender to the transaction and from the transaction to the recipient, both labelled with the amount. |
| GraphTransactions.BaseElements | frontend/js/graph-transactions.js:96-167 | Exactly 5 elements: the main transaction (`main-transaction`), the two users, then fromUser→t and t→toUser. |
| GraphTransactions.RelatedElements | frontend/js/graph-transactions.js:170-260 | Exactly 6 elements per related entry. Among them is the shared edge from the main transaction to the related one, with id `shared-<t>-<related>-<type>` and a label that uses `value`, falling back to `attribute`. |
| GraphTransactions.AllRelated | frontend/js/graph-transactions.js:170-260 | Six elements per related entry. |
| GraphTransactions.AllRelatedBlock | frontend/js/graph-transactions.js:170-260 | The i-th block of six is the i-th entry's elements. |
| GraphTransactions.TransactionElementsLayout | frontend/js/graph-transactions.js:87-274 | The list is 5 + 6n long: the base elements, then one block per entry. |
| GraphTransactions.MainTransactionFirst | frontend/js/graph-transactions.js:96-108 | The main transaction heads the collection. |
| GraphTransactions.SharedBadge | frontend/js/graph-transactions.js:317-342 | A `SHARED_<rest>` type is shown as `<rest>` with the class `shared-<rest in lower case>`. |
| GraphTransactions.Types | frontend/js/graph-transactions.js:321-324 | The types of the entries, one per entry. |
| GraphTransactions.SharedInfoOf | frontend/js/graph-transactions.js:317-350 | "No Related Transactions" exactly for a missing or empty list. Otherwise the count is the number of entries, and the types shown are distinct, come from the entries, and include every entry's type. |
| GraphTransactions.OneTypeOnce | frontend/js/graph-transactions.js:318-324 | Entries that all share one type show that type once. |
| GraphTransactions.TransactionPanel.constructor | frontend/js/graph-transactions.js:6-7 | No graph, the placeholder summary, and no current transaction. |
| GraphTransactions.TransactionPanel.AddRelatedEntries | frontend/js/graph-transactions.js:170-260 | The related-entry loop adds the related part. |
| GraphTransactions.TransactionPanel.VisualizeTransactionRelationships | frontend/js/graph-transactions.js:87-274 | The graph is rebuilt from empty with the transaction's elements, and the main node comes first. |
| GraphTransactions.CollectTypes | frontend/js/graph-transactions.js:318-324 | Filling the `Set` entry by entry yields every type once, in order of first appearance. |
| GraphTransactions.TransactionPanel.UpdateRelationshipSummary | frontend/js/graph-transactions.js:277-353 | The summary shows the main transaction's info and the shared info. |
| GraphTransactions.TransactionPanel.ClearTransactionRelationships | frontend/js/graph-transactions.js:356-367 | No elements, the placeholder summary, and no current transaction. |

## Left out

- **The Neo4j engine.** Cypher evaluation, `shortestPath`, `count(DISTINCT)`, indexes and
  constraints are not modelled. A MATCH over all nodes is taken to visit them in creation
  order. A neighbourhood read is stated as the set of edges it collects, not the row shape
  the database builds. A path query is an input list of paths.
- **The all-null neighbourhood entry.** An OPTIONAL MATCH with no match collects one
  entry that is null throughout. The model does not produce it. The view code that would
  throw on it is modelled on well-formed entries only.
- **Idempotence of edge writes.** Not claimed. Shared-edge patterns include the clock,
  and flow edges are keyed on amount, currency and timestamp, so repeated writes can add
  edges. Edges are kept as a list.
- **Errors inside detection.** Detection errors propagate and are not modelled. The
  "Failed to create or update" error is unreachable in the model and is not modelled.
- **The `getAllUsers` and `getAllTransactions` statements.** Their list handling is
  modelled as `Responses.ListResponse`.
- **Other analysis endpoints.** The network overview, shared-attribute analysis and
  transaction patterns are left out.
- **Plumbing.** Connection, sessions, retry, server, routes, the dependency container
  and the sample-data script are left out.
- **Floating point.** `parseFloat`, float amounts and `toNumber` precision are left out.
  Amounts are integers and an unparsable amount is `None`.
- **`JSON.stringify` and `JSON.parse`.** They are parameters of the model.
- **The clock.** `datetime()` and `new Date()` are a `now` or `exportDate` parameter.
  Date formatting is left out. One `now` is shared by all the scans of one detection run,
  while the source evaluates `datetime()` in each statement. In the source, a payment
  method listed twice can therefore add two edges whose `createdAt` differs. In the model
  the second MERGE finds the first edge.
- **JavaScript object key order.** Integer-like keys are not reordered. Keys inherited
  from `Object.prototype` are not considered in the type counts.
- **`toLowerCase` and ordering.** `toLowerCase` is ASCII only. String comparison is
  character-code order.
- **null and undefined.** Both are distinguished only where the source distinguishes them.
- **GraphModel.UpsertedUser, GraphModel.UpsertedTransaction:** an input field is either
  given or absent (`Option`), so an explicit `null` cannot be expressed. The source's
  destructuring defaults (`currency = 'USD'`, `type = 'TRANSFER'`, `paymentMethods = []`,
  `metadata = {}` and so on) apply only to `undefined`. An explicit `null` bypasses them.
  It is stored as null, which removes the property, or for `metadata` it is stringified as
  `null`. The model gives it the default.
- **Non-string search fields.** The model treats a search field that is missing or not a
  string as not matching. `searchUsers` and `searchTransactions` (utils.js:274-295) read
  every field with `?.`. There a missing or null field gives `undefined` and does not match,
  which the model has exactly. A field that is present but not a string throws, because it
  has no `toLowerCase`. In `filterUsers` and `filterTransactions` (ui.js:247-249, 267-269),
  only `description` is read with `?.`. A missing, null or non-string `name`, `email`,
  `id`, `fromUserId` or `toUserId` throws, unless an earlier alternative has already
  matched. So does a non-string `description`. The throwing cases are not modelled.
- **Front-end I/O.** `fetch` calls, caching in `api.js` (including its separate copy of
  the current transaction relationships), DOM and HTML building, styles, node colours,
  layout and `fit`, messages, the loading indicator, `debounce`, `throttle` and
  `localStorage` are left out. `Promise.all` loads are taken as already-loaded input.
- **Extra node data.** Cytoscape enforces that ids are unique and that an edge has both
  ends. This is modelled as the acceptance rule of `GraphElements`. Of the node data
  spread in with `...user` and `...tx`, only the transaction's own `type` is modelled,
  because it replaces the node's `type`. Stored users carry no `type` property. The rest of
  the spread data and the `explorerCy` null guards are left out.
- **calculateDensity.** A float ratio, left out.
- **GraphExplorer.Explorer.AddSharedAttributeEdges:** the early return while
  `isLoadingRelationships` is set guards against a second call that overlaps the first one's
  awaits. Only asynchronous interleaving creates that case. The model runs every call to the
  end, and every modelled operation leaves the flag clear. The branch is modelled, but no
  sequence of modelled operations reaches it.
- **GraphModel.FlowParties:** `getTransactionById` takes the first `SENT_TO` and
  `RECEIVED_FROM` edges in edge order. The database returns some match, not necessarily
  the first.
- **Ids** are strings throughout. Captions are the rendered strings.

## Findings

| source | as written | input that shows it | evidently intended | confidence | as-written member | corrected member |
|---|---|---|---|---|---|---|
| backend/src/services/userService.js:119-123 | Detection reads the user back through `convertNeo4jIntegers`, which turns the `paymentMethods` array into an index-keyed object (databaseService.js:140, 157-158). `user.paymentMethods.length` is then undefined, so the payment-method loop never runs. | user `user-001` with payment methods `["card-1"]` | One `SHARED_PAYMENT_METHOD` scan per stored payment method | not executed | GraphModel.AsWrittenMissesPaymentScan | GraphModel.DetectionPlanOfStoredUser |
| backend/src/controllers/transactionController.js:19-24 | `parseFloat(amount) <= 0` is false for NaN, so a non-numeric amount passes the positivity check. | amount `"abc"` | Reject an amount that does not read as a positive number | not executed | TransactionController.AsWrittenAcceptsUnparsableAmount | TransactionController.CreateOrUpdateTransactionResponse |
