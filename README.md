# Fatture in Cloud n8n node — a Dafny model

This project models the logic of the Fatture in Cloud community node for
n8n. The node sits between n8n and the Fatture in Cloud SDK, and comes in two
versions.

**The modular node** (`FattureInCloudModular`):
- Its constructor registers five resource modules (user, company, client,
  issued document, supplier) in an insertion-ordered map.
- It builds its property list from the resource descriptors. Along the way it
  stamps `displayOptions.show.resource` and `displayOptions.show.operation`
  onto the shared field descriptors, in place.
- Its `execute` picks the module for the batch's resource and runs it on every
  input item in order. It either collects each item's entries, or reports a
  failed item and stops.
- Each module resolves an access token from three credential shapes, then
  builds the SDK request for its operation. The issued-documents module checks
  the entity, settles the VAT of line items and the terms of payments, picks
  the document date, and spreads the additional fields last.
- List operations cut the page down to `limit` entries unless "Return All" is
  set.

**The legacy node** (`FattureInCloud`) has one `execute`. It branches on
resource and operation inside the same kind of item loop. It builds invoice
and client bodies without the entity-name check, and without the VAT and
payment-terms defaults. It still sends null for missing entity details, `[]`
for missing rows, and today's date when create is given none. It reads only
`credentials.accessToken`.

Which file models what:

| file | models |
|---|---|
| `js.dfy` | JavaScript values and the semantics the code relies on: truthiness, the or-operator, optional chaining, spread, thrown errors |
| `credentials.dfy` | the token resolver and the legacy node's token read |
| `listing.dfy` | the "Get Many" truncation rule |
| `sdk.dfy` | the SDK boundary |
| `parties.dfy` | the `{name, ...additionalFields}` body |
| `issued_documents.dfy`, `clients.dfy`, `suppliers.dfy`, `companies_user.dfy` | the modules |
| `registry.dfy` | the module factory |
| `batch.dfy` | the item loop (`RunItems`) and its specification (`RunOf`) |
| `modular_execute.dfy`, `legacy.dfy` | the two `execute` methods |
| `schema.dfy` | the property schema, with the `Property` descriptors as a class mutated in place |

What lies outside the node's code is passed in as an `Env` value:
- the SDK (`api`): the result of a request made while processing item `i`;
- date parsing (`iso`): `new Date(v).toISOString()`, or none when that throws;
- the clock (`now`).

The host's parameter lookup becomes a map of parameter values per item. The
credentials become an object. The continue-on-fail flag is a parameter.

## Model

| member | source | states |
|---|---|---|
| Js.Merge | nodes/FattureInCloud/modules/IssuedDocumentsModule.ts:69-78 | Object spread: the keys of both objects; the right-hand value wins where both have a key, the left-hand value stays elsewhere |
| Js.Member | nodes/FattureInCloud/modules/IssuedDocumentsModule.ts:100 | A plain property read throws a TypeError exactly when the object is null or undefined; otherwise it reads the own property |
| Js.OrChainPicksFirstTruthy | nodes/FattureInCloud/FattureInCloudModular.node.ts:220-224 | A chain of or-operators yields its first truthy operand, with every operand before it falsy, and yields the fallback when none is truthy |
| Credentials.ResolveToken | nodes/FattureInCloud/modules/IssuedDocumentsModule.ts:14-26 | A token, when one is found, is truthy |
| Credentials.ResolveTokenIsFirstTruthy | nodes/FattureInCloud/modules/IssuedDocumentsModule.ts:14-26 | The token is exactly the first truthy candidate in the order nested `oauthTokenData.access_token`, `access_token`, `accessToken`; the lookup fails exactly when none is truthy |
| Credentials.NestedTokenWins | nodes/FattureInCloud/modules/ClientsModule.ts:14-15 | A truthy nested OAuth token wins over both flat fields |
| Credentials.CredentialShapes | nodes/FattureInCloud/modules/SuppliersModule.ts:14-22 | Each of the three credential shapes resolves to its own token, and an empty credential object resolves to none |
| Credentials.EmptyStringFallsThrough | nodes/FattureInCloud/modules/IssuedDocumentsModule.ts:16-19 | An empty `access_token` is skipped and the lookup moves on to `accessToken` |
| Credentials.LegacyToken | nodes/FattureInCloud/FattureInCloud.node.ts:547-550 | The legacy node takes `credentials.accessToken` as it is, undefined when absent |
| Credentials.LegacyIgnoresOtherShapes | nodes/FattureInCloud/FattureInCloud.node.ts:547-550 | Where the modules find the nested OAuth token, the legacy node finds none |
| Listing.ToNumber | nodes/FattureInCloud/modules/IssuedDocumentsModule.ts:102 | A numeric limit compares as its own value; an unset limit is NaN |
| Listing.Trunc | nodes/FattureInCloud/modules/IssuedDocumentsModule.ts:103 | `slice` truncates a fractional index toward zero: the result is within one of the index, on the side of zero |
| Listing.SliceEnd | nodes/FattureInCloud/modules/IssuedDocumentsModule.ts:103 | The end `slice(0, end)` stops at never passes the length; a negative end counts back from the length and stops at 0 |
| Listing.ListBody | nodes/FattureInCloud/modules/IssuedDocumentsModule.ts:100 | The list is the body's `data` when truthy, `[]` otherwise; a null or undefined body throws |
| Listing.ReturnAllKeepsEverything | nodes/FattureInCloud/modules/ClientsModule.ts:64-66 | With "Return All" set, the list comes back unchanged |
| Listing.TruncateKeepsFirstEntries | nodes/FattureInCloud/modules/IssuedDocumentsModule.ts:102-104 | Without "Return All", and with a limit of zero or more, the result is the first `limit` entries in order, or the whole list when it is no longer |
| Listing.TruncateIsPrefix | nodes/FattureInCloud/modules/SuppliersModule.ts:64-66 | For any flags the result is a prefix of the list, no longer than it |
| Listing.NegativeLimitDropsFromEnd | nodes/FattureInCloud/modules/ClientsModule.ts:64-66 | A negative limit drops that many entries from the end, as `slice` does |
| Listing.FiveEntriesLimitTwo | nodes/FattureInCloud/FattureInCloud.node.ts:586-595 | Five entries with limit 2 give the first two; with "Return All", all five |
| Sdk.Param | nodes/FattureInCloud/modules/IssuedDocumentsModule.ts:95-96 | A parameter's value when it is set, the given default otherwise |
| Sdk.DeleteResult | nodes/FattureInCloud/modules/IssuedDocumentsModule.ts:160 | The delete result has exactly the keys `success` (true) and `deleted` (the id) |
| Sdk.Finish | nodes/FattureInCloud/modules/IssuedDocumentsModule.ts:88-106 | A plain call returns the response body; a delete returns its result; a list call throws exactly when the body is nullish |
| Sdk.Call | nodes/FattureInCloud/modules/IssuedDocumentsModule.ts:88-92 | A call makes exactly its request; an SDK rejection is rethrown unchanged, a response is finished as the operation says |
| Parties.AdditionalFieldsWin | nodes/FattureInCloud/modules/ClientsModule.ts:38-41 | The body holds `name` and every additional field; an additional field wins, including one called `name` |
| Parties.NoAdditionalFields | nodes/FattureInCloud/modules/SuppliersModule.ts:38-41 | Unset or empty (`{}`) additional fields leave the body `{name}` |
| Clients.Execute | nodes/FattureInCloud/modules/ClientsModule.ts:9-105 | Every request the module makes carries the resolved token |
| Clients.GetAllTruncates | nodes/FattureInCloud/modules/ClientsModule.ts:57-68 | "Get Many" lists the company's clients; its result is the listed page truncated with "Return All" defaulting to false and the limit to 50 |
| Clients.CreateAndUpdateSendNamedBody | nodes/FattureInCloud/modules/ClientsModule.ts:34-86 | Create and update send the same named body; update sends it for `clientId` |
| Clients.GetInfoIsPlaceholder | nodes/FattureInCloud/modules/ClientsModule.ts:94-98 | "Get Info" answers its fixed placeholder and makes no request |
| Clients.DeleteReportsId | nodes/FattureInCloud/modules/ClientsModule.ts:88-92 | An accepted delete yields `{success: true, deleted: clientId}` |
| Clients.UnknownOperationThrows | nodes/FattureInCloud/modules/ClientsModule.ts:100-101 | Any other operation throws "Unknown operation: op" and makes no request |
| Suppliers.Execute | nodes/FattureInCloud/modules/SuppliersModule.ts:9-98 | Every request the module makes carries the resolved token |
| Suppliers.GetAllTruncates | nodes/FattureInCloud/modules/SuppliersModule.ts:57-68 | "Get Many" lists the company's suppliers; its result is the listed page truncated with "Return All" defaulting to false and the limit to 50 |
| Suppliers.CreateAndUpdateSendNamedBody | nodes/FattureInCloud/modules/SuppliersModule.ts:34-86 | Create and update send the same named body; update sends it for `supplierId` |
| Suppliers.DeleteReportsId | nodes/FattureInCloud/modules/SuppliersModule.ts:88-92 | An accepted delete yields `{success: true, deleted: supplierId}` |
| Suppliers.UnknownOperationThrows | nodes/FattureInCloud/modules/SuppliersModule.ts:94-95 | Any other operation throws "Unknown operation: op" and makes no request |
| Companies.Execute | nodes/FattureInCloud/modules/CompaniesModule.ts:14-46 | Without a token it fails without a request; every request carries the token; only `getInfo` and `getPlanUsage` can make a request |
| Users.Execute | nodes/FattureInCloud/modules/UserModule.ts:14-44 | Without a token it fails without a request; every request carries the token; only `getInfo` and `listCompanies` can make a request |
| IssuedDocuments.TrimStart | nodes/FattureInCloud/modules/IssuedDocumentsModule.ts:49 | Trimming the start leaves nothing exactly when the string is all white space, and otherwise starts at a non-space |
| IssuedDocuments.TrimEmptyIffBlank | nodes/FattureInCloud/modules/IssuedDocumentsModule.ts:49 | `trim()` gives the empty string exactly when the name is all white space |
| IssuedDocuments.CheckCreateEntity | nodes/FattureInCloud/modules/IssuedDocumentsModule.ts:49-55 | Create's check fails with the missing-name error exactly when the entity, its details or its name is falsy, or the name is blank; on success it gives the entity details, whose name is a non-blank string |
| IssuedDocuments.CheckUpdateEntity | nodes/FattureInCloud/modules/IssuedDocumentsModule.ts:119-125 | Update's check fails exactly when the entity or its details are falsy, or the details have no keys; it never looks at the name |
| IssuedDocuments.BlankNameOnlyStopsCreate | nodes/FattureInCloud/modules/IssuedDocumentsModule.ts:119-125 | A blank client name stops create but passes update |
| IssuedDocuments.WithDefault | nodes/FattureInCloud/modules/IssuedDocumentsModule.ts:58-61 | Mapping an element throws a TypeError exactly when the element is null or undefined |
| IssuedDocuments.WithDefaultFields | nodes/FattureInCloud/modules/IssuedDocumentsModule.ts:58-61 | A mapped element keeps all its own keys; the defaulted key becomes its details sub-object when truthy, the default otherwise |
| IssuedDocuments.MapWithDefault | nodes/FattureInCloud/modules/IssuedDocumentsModule.ts:64-67 | Mapping a list keeps its length and order, element by element; it fails exactly when some element is nullish |
| IssuedDocuments.ProcessList | nodes/FattureInCloud/modules/IssuedDocumentsModule.ts:128-137 | Mapping fails, always with a TypeError, exactly when the collection is nullish, the list (`[]` when falsy) is not an array, or one of its elements is nullish; otherwise the result has one element per list element, in order, each that element with its key defaulted |
| IssuedDocuments.UnsetListIsEmpty | nodes/FattureInCloud/modules/IssuedDocumentsModule.ts:58-67 | An unset item or payment list maps to `[]` |
| IssuedDocuments.ItemsKeepOrderAndGetVat | nodes/FattureInCloud/modules/IssuedDocumentsModule.ts:58-61 | Items keep their number and order and their own keys; each `vat` is its VAT details or the 22% default |
| IssuedDocuments.ItemWithoutVat | nodes/FattureInCloud/modules/IssuedDocumentsModule.ts:58-61 | An item without VAT gets `{id: 0, value: 22, description: ''}` |
| IssuedDocuments.PaymentsKeepOrderAndGetTerms | nodes/FattureInCloud/modules/IssuedDocumentsModule.ts:64-67 | Payments keep their number and order and their own keys; each `payment_terms` is its terms details or the standard immediate terms |
| IssuedDocuments.PaymentWithoutTerms | nodes/FattureInCloud/modules/IssuedDocumentsModule.ts:64-67 | A payment without terms gets `{days: 0, type: 'standard'}` |
| IssuedDocuments.DatePart | nodes/FattureInCloud/modules/IssuedDocumentsModule.ts:72 | `split('T')[0]` is the longest prefix without a 'T' |
| IssuedDocuments.DocumentDate | nodes/FattureInCloud/modules/IssuedDocumentsModule.ts:72 | A given date becomes the date part of its ISO form, or a RangeError when it is invalid; an empty date is today's date part on create and undefined on update |
| IssuedDocuments.DatePartOfTimestamp | nodes/FattureInCloud/modules/IssuedDocumentsModule.ts:141 | A full ISO timestamp is cut to its calendar day |
| IssuedDocuments.UpdateBase | nodes/FattureInCloud/modules/IssuedDocumentsModule.ts:139-147 | The node's own update keys are exactly entity, date, number, subject, items_list and payments_list, holding the checked entity, the date and the settled lists |
| IssuedDocuments.CreateDocumentShape | nodes/FattureInCloud/modules/IssuedDocumentsModule.ts:69-78 | A create body holds the node's seven keys plus the additional fields, and every additional field wins |
| IssuedDocuments.CreateDocumentOwnValues | nodes/FattureInCloud/modules/IssuedDocumentsModule.ts:69-78 | Unless an additional field replaces them, the entity is the form's entity details and the lists are the settled items and payments |
| IssuedDocuments.CreateDocumentDate | nodes/FattureInCloud/modules/IssuedDocumentsModule.ts:72 | Unless an additional field replaces it, the create date is the given date's day, or today's when none is given |
| IssuedDocuments.UpdateDocumentShape | nodes/FattureInCloud/modules/IssuedDocumentsModule.ts:139-147 | An update body holds the six keys (no `type`) plus the additional fields, which win; the entity is the form's details; an empty date stays undefined |
| IssuedDocuments.CreateRefusesMissingName | nodes/FattureInCloud/modules/IssuedDocumentsModule.ts:49-55 | Create fails with the missing-name error exactly when the name check says so |
| IssuedDocuments.AcmeIsAccepted | nodes/FattureInCloud/modules/IssuedDocumentsModule.ts:49-78 | With an entity named "Acme" and no items, payments or date given, create builds its body; unless additional fields replace them, the entity keeps the name "Acme", the items are `[]` and the date is today's |
| IssuedDocuments.Execute | nodes/FattureInCloud/modules/IssuedDocumentsModule.ts:9-168 | Every request the module makes carries the resolved token |
| IssuedDocuments.CreateAndUpdateSendDocuments | nodes/FattureInCloud/modules/IssuedDocumentsModule.ts:38-155 | Create sends the create body for the company and update sends the update body for `documentId`; a body that cannot be built stops the operation with its error, before any request |
| IssuedDocuments.RefusedEntityMakesNoRequest | nodes/FattureInCloud/modules/IssuedDocumentsModule.ts:38-56 | A refused entity stops create with the missing-name error before any request |
| IssuedDocuments.GetAllListsInvoices | nodes/FattureInCloud/modules/IssuedDocumentsModule.ts:94-106 | "Get Many" requests invoices; its result is the listed page truncated with "Return All" defaulting to false and the limit to 50 |
| IssuedDocuments.DeleteReportsId | nodes/FattureInCloud/modules/IssuedDocumentsModule.ts:157-161 | An accepted delete yields `{success: true, deleted: documentId}` |
| IssuedDocuments.UnknownOperationThrows | nodes/FattureInCloud/modules/IssuedDocumentsModule.ts:163-164 | Any other operation throws "Unknown operation: op" and makes no request |
| Registry.CreateModuleKnowsFiveNames | nodes/FattureInCloud/FattureInCloudModular.node.ts:181-196 | The factory returns a module exactly for `user`, `company`, `client`, `issuedDocument` and `supplier`, and that module's resource carries the name |
| Registry.CreateModuleFindsEveryModule | nodes/FattureInCloud/FattureInCloudModular.node.ts:181-196 | Every module is found again under its own resource name |
| Registry.MissingTokenStopsEveryModule | nodes/FattureInCloud/modules/IssuedDocumentsModule.ts:20-26 | Without a token every module throws the "Access token not found" message for every operation, and makes no request |
| Registry.RequestsCarryResolvedToken | nodes/FattureInCloud/modules/ClientsModule.ts:14-22 | Every request any module makes carries the token the resolver picked |
| Batch.JsonArray | nodes/FattureInCloud/FattureInCloudModular.node.ts:212-215 | An array gives one entry per element; any other value gives one entry |
| Batch.ErrorMessagePriority | nodes/FattureInCloud/FattureInCloudModular.node.ts:220-224 | The message is the first truthy one of validation_result, error_description, the response message and the error's own message; "Unknown error" when none is truthy; so it is never empty |
| Batch.LocalErrorReportsOwnMessage | nodes/FattureInCloud/FattureInCloudModular.node.ts:223 | An error thrown by the node itself, with no response, reports its own message |
| Batch.ValidationResultWins | nodes/FattureInCloud/FattureInCloudModular.node.ts:220 | The API's validation result wins over every other message |
| Batch.ErrorDetailsFields | nodes/FattureInCloud/FattureInCloudModular.node.ts:226-231 | The details of a failure hold exactly four fields: the chosen message, and the response's status, statusText and data |
| Batch.Tag | nodes/FattureInCloud/FattureInCloudModular.node.ts:212-215 | Every entry is paired with its own item |
| Batch.FirstError | nodes/FattureInCloud/FattureInCloudModular.node.ts:208-247 | The first failed item: it failed and all before it succeeded; none exactly when every item succeeds |
| Batch.Results | nodes/FattureInCloud/FattureInCloudModular.node.ts:208-210 | Each item is run with its own index |
| Batch.RunItems | nodes/FattureInCloud/FattureInCloudModular.node.ts:208-249 | The loop's outcome and the number of items it attempts (items 0 up to that number) are those `RunOf` gives for the items' results |
| Batch.CollectedPerItem | nodes/FattureInCloud/FattureInCloudModular.node.ts:233-240 | The entries paired with item i are exactly the entries item i contributes; items past the end contribute none |
| Batch.CollectedInItemOrder | nodes/FattureInCloud/FattureInCloudModular.node.ts:208-217 | Entries come out in item order, each paired with an item of the batch |
| Batch.SecondOfThreeFails | nodes/FattureInCloud/FattureInCloudModular.node.ts:233-247 | With the second of three items failing: continuing gives three entries, the middle one an error entry; failing fast throws for item 1 after attempting two items |
| ModularExecute.Execute | nodes/FattureInCloud/FattureInCloudModular.node.ts:172-252 | An unknown resource throws before any item is attempted; otherwise the outcome and the number of items attempted are those `RunOf` gives for the chosen module's results, with detailed error entries |
| ModularExecute.MissingTokenStopsAtFirstItem | nodes/FattureInCloud/FattureInCloudModular.node.ts:242-247 | Without a token, and with continue-on-fail off, a batch stops at item 0 with the "Access token not found" message, after one attempt |
| ModularExecute.ContinueOnFailReportsEveryItem | nodes/FattureInCloud/FattureInCloudModular.node.ts:233-240 | With continue-on-fail on, every item is attempted and item i's entries are exactly its own result or error entry |
| Legacy.EntityDetails | nodes/FattureInCloud/FattureInCloud.node.ts:567-573 | The entity sent is the entity details, or null when falsy; a nullish entity throws a TypeError |
| Legacy.ItemRows | nodes/FattureInCloud/FattureInCloud.node.ts:567-573 | The rows sent are `itemsList.item` as given, or `[]` when falsy; a nullish list throws a TypeError |
| Legacy.InvoiceBodyShape | nodes/FattureInCloud/FattureInCloud.node.ts:560-608 | An invoice body has exactly type, entity, date, number and items_list (no type on update), with the entity details or null and the rows untouched |
| Legacy.InvoiceBodyFailures | nodes/FattureInCloud/FattureInCloud.node.ts:560-608 | An invoice body fails exactly when the entity or the rows are nullish or the date is invalid |
| Legacy.Item | nodes/FattureInCloud/FattureInCloud.node.ts:556-685 | Every request uses the batch's token; an unmatched resource gives undefined and makes no request |
| Legacy.InvoiceRequests | nodes/FattureInCloud/FattureInCloud.node.ts:560-615 | Invoice create sends the invoice body for the company; update sends the update body for `documentId`; a body that cannot be built stops the item with its error, before any request |
| Legacy.ClientRequests | nodes/FattureInCloud/FattureInCloud.node.ts:626-671 | Client create and update send the `{name, ...additionalFields}` body; update sends it for `clientId` |
| Legacy.DeletesReportId | nodes/FattureInCloud/FattureInCloud.node.ts:616-677 | An accepted invoice or client delete yields `{success: true, deleted: id}` with `documentId` or `clientId` |
| Legacy.GetAllTruncates | nodes/FattureInCloud/FattureInCloud.node.ts:586-655 | "Get Many" lists documents of type "invoice", or clients; the result is the listed page truncated with the limit defaulting to 50 and "Return All" having no default |
| Legacy.Execute | nodes/FattureInCloud/FattureInCloud.node.ts:539-709 | The token is read once, unchecked; the outcome and the number of items attempted are those `RunOf` gives for the items' results, a failed item reporting only its message |
| Legacy.CompanyInfoAsksForUser | nodes/FattureInCloud/FattureInCloud.node.ts:678-685 | "Company → Get Info" requests the user's info |
| Legacy.MissingTokenStillCalls | nodes/FattureInCloud/FattureInCloud.node.ts:547-550 | Without `accessToken` the node still makes its request, with an undefined token |
| Legacy.UnmatchedGivesEmptyObjects | nodes/FattureInCloud/FattureInCloud.node.ts:687-692 | An unmatched resource gives `{}` for every item, paired with that item, whatever the operation |
| Legacy.AllUndefinedGiveEmptyObjects | nodes/FattureInCloud/FattureInCloud.node.ts:687-692 | Undefined results collect to one `{}` per item, and nothing fails |
| Legacy.BlankNameIsSent | nodes/FattureInCloud/FattureInCloud.node.ts:567-573 | The entity details are sent as given, with no name check; unset rows are sent as `[]` |
| Schema.MapSet | nodes/FattureInCloud/FattureInCloudModular.node.ts:85-89 | Setting a new key appends it; setting an existing key keeps its place; distinct keys stay distinct |
| Schema.Values | nodes/FattureInCloud/FattureInCloudModular.node.ts:164-166 | The values come in key order, one per key |
| Schema.Apply | nodes/FattureInCloud/FattureInCloudModular.node.ts:127-155 | A stamp leaves the display options and their `show` present, with `show.resource` set to `[resource]`, and keeps the other display options |
| Schema.ResourceStamp | nodes/FattureInCloud/FattureInCloudModular.node.ts:125-136 | The resource stamp sets `show.resource` to `[resource]`, replacing any earlier value, and keeps every other `show` key and display option |
| Schema.ResourceStampIdempotent | nodes/FattureInCloud/FattureInCloudModular.node.ts:133 | Stamping a resource twice equals stamping it once; a later resource stamp wins |
| Schema.OperationStamp | nodes/FattureInCloud/FattureInCloudModular.node.ts:139-158 | The operation stamp sets `show.resource` and appends the operation to `show.operation`, starting from `[]` when falsy; a truthy non-array is left alone; other keys stay |
| Schema.OperationStampRepeats | nodes/FattureInCloud/FattureInCloudModular.node.ts:149-155 | The operation push is not idempotent: a second stamp lists the operation twice |
| Schema.LastResourceWins | nodes/FattureInCloud/FattureInCloudModular.node.ts:133 | After any stamps, `show.resource` is the last stamp's resource |
| Schema.OperationsAccumulate | nodes/FattureInCloud/FattureInCloudModular.node.ts:149-155 | Operation stamps append every stamped operation, in order and with repeats |
| Schema.OptionsOf | nodes/FattureInCloud/FattureInCloudModular.node.ts:115-120 | Selector options mirror the operations in order: display name, value, description, action |
| Schema.Selectors | nodes/FattureInCloud/FattureInCloudModular.node.ts:104-121 | One "Operation" selector per module, in map order, for that module's resource |
| Schema.Pushed | nodes/FattureInCloud/FattureInCloudModular.node.ts:135 | One field entry per stamped property, in stamping order |
| Schema.StampProperties | nodes/FattureInCloud/FattureInCloudModular.node.ts:125-136 | The properties are listed in order; each property's display options are its old ones with its stamps applied, and other properties are untouched |
| Schema.StampOperation | nodes/FattureInCloud/FattureInCloudModular.node.ts:140-158 | An operation's properties, if any, are stamped with the resource and the operation and listed in order |
| Schema.StampOperations | nodes/FattureInCloud/FattureInCloudModular.node.ts:139-159 | Every operation's properties are stamped and listed, operation by operation |
| Schema.StampModule | nodes/FattureInCloud/FattureInCloudModular.node.ts:124-160 | A module's resource-level properties come first, then its operations' properties |
| Schema.CollectModules | nodes/FattureInCloud/FattureInCloudModular.node.ts:100-161 | One selector per module under its resource name, in map order; every field property listed and stamped in processing order |
| Schema.ModularNode.BuildProperties | nodes/FattureInCloud/FattureInCloudModular.node.ts:95-170 | The properties gain the selectors first and then the field properties; each shared descriptor ends with all its stamps applied to its old display options |
| Schema.ModularNode.constructor | nodes/FattureInCloud/FattureInCloudModular.node.ts:77-93 | The five modules are registered by resource name; the property list is the Resource property, the selectors, then the fields |
| Schema.Registered | nodes/FattureInCloud/FattureInCloudModular.node.ts:85-89 | The module map has distinct keys |
| Schema.RegisteredInOrder | nodes/FattureInCloud/FattureInCloudModular.node.ts:85-89 | With five distinct names, the modules come in registration order |
| Schema.CompanyOnlyEvents | nodes/FattureInCloud/resources/CompaniesResource.ts:31-58 | Over the User and Company descriptors, a build stamps the company ID field for the resource and the category field for "Get Plan Usage", and nothing else |
| Schema.CompanyOnlyBuild | nodes/FattureInCloud/resources/CompaniesResource.ts:31-58 | Such a build touches only the two Company fields and stamps the category field once |
| Schema.BuildOverCompany | nodes/FattureInCloud/FattureInCloudModular.node.ts:139-158 | Building one node adds exactly one "Get Plan Usage" stamp to the category field |
| Schema.BuildTwiceOverSharedDescriptors | nodes/FattureInCloud/FattureInCloudModular.node.ts:149-155 | Two nodes built over the same descriptors list "getPlanUsage" once after the first and twice after the second, while `show.resource` stays `["company"]` |

## Left out

- The SDK and HTTP are not modelled. Each call is the `api` parameter, which maps an item and a request to a response or an error. So are `async`/`await`: items run strictly one after another.
- Date parsing and the clock are parameters. Time zones and calendar arithmetic are not modelled.
- The host's `getNodeParameter` is a map per item. An unset parameter is undefined, or the default the code passes. The host's own property defaults from the descriptors are not modelled.
- Resource and operation are read from item 0. The model takes them as one value for the whole batch.
- The legacy node's `getCredentials` failure is not modelled. Its token read is modelled.
- `constructExecutionMetaData` is modelled only as pairing each entry with its item.
- `returnJsonArray` wraps each value in `{json: ...}`. The model keeps the value and its item only.
- Batch.FailureMessage: the modular node's thrown error prefixes "Fatture in Cloud API Error: " to the message, and adds a status description. The model keeps the chosen message and the original error only.
- Js.SpreadOf: spreading a string or an array copies nothing in the model. JavaScript copies index keys. The forms only supply objects there.
- Listing.ToNumber: strings, arrays and objects read as NaN. JavaScript would convert numeric strings. Numbers are reals, so NaN and the infinities are not values.
- `Object.values` puts integer-like keys first. The model keeps insertion order. The resource names are not integers.
- Thrown error texts other than the node's own messages are not modelled, for example the TypeError text of a failed property read.
- The resource descriptors hold display strings, placeholders and option lists. Only names, operation values, field properties and their display options are modelled. The worked example uses the User and Company descriptors, with the other three modules given no fields.
- The OAuth2 credential definition is not modelled: it holds configuration constants only. The type declarations are not modelled either: they have no behaviour.
- Monetary fields in items and payments are passed through untouched. No arithmetic is done on them.
