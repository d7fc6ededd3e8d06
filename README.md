# polifluence-api: the cache-and-merge core, in Dafny

polifluence-api is an Express/Mongoose service that serves members of
Congress and their bills. It fetches them from the ProPublica congressional
API, caches them in MongoDB, and answers from that cache. This project
models the part of it that decides what gets cached and what gets served:

- **Upstream records to store records.** `proPublicaBillToMongo` and
  `proPublicaMemberToMongo` map upstream objects to store records.
  Upstream values are JSON (`Js.Json`) and `undefined` is `None`. So a
  misspelt key such as `senate__passage` or `roles.part` is read exactly
  as the code reads it.
- **The schemas.** `BillModels` and `MemberModels` hold the required and
  unique fields and the two `serialize` projections. A collection is a
  map keyed by the unique id plus the natural order `find()` returns
  (`Store.Collection`).
- **`addMember`.** The model creates the member, or overwrites the five
  allow-listed fields of a stored one. It then collects the ids of the
  bills the member introduced and cosponsored, and merges them into the
  stored lists with the order-preserving `removeDuplicates`. The
  specification is the function `MemberUtils.AddMemberSpec`. The
  imperative method `MemberUtils.AddMember` runs the same steps against a
  `MemberModels.MemberModel` object, whose `docs` and `order` fields it
  updates in place, with the source's two `forEach` loops. It is proved
  to leave the store exactly as the specification says.
- **The three fetchers.** The model keeps the results-envelope decision
  of each fetcher.
- **The bill routes.** The model covers the search-term guard, the
  upstream `ERROR` rejection, the response list and the cosponsor
  backfill of `GET /bills/:id`.
- **The member routes.** The model covers list-all, get-one and the
  bills-for-member membership filter.

Inputs from outside the model:

- **The clock.** `Date.now()` is a parameter `now`. A request reads it
  once.
- **Upstream responses.** Every upstream response is a parameter: the
  parsed JSON, plus the `status` property where the route checks it.
- **Helpers not in the repository.** The bill router imports
  `getRecentlyEnactedBills`, `searchForBill`, `getCosponsorsFor`,
  `serializeBill` and `addMultipleBills`, and `addMember` calls
  `addMultipleBills`. None of these is defined in `bills/bill-utils.js`,
  which exports only `proPublicaBillToMongo`. So each enters as what it
  resolves to:
  - a `BillRouter.Reply`;
  - a function parameter `serializeBill`;
  - an `Outcome`, which says whether `addMultipleBills` settled or
    rejected.

Points where the code behaves in a way that is easy to misread:

- No staleness or freshness check exists. A stored bill or member is never
  refetched because of its age.
- The cosponsor backfill of `GET /bills/:id` replaces `cosponsors` only.
  It does not touch `lastUpdated`.
- `proPublicaMemberToMongo` reads `roles.part`, not `roles.party`. So
  `party` falls back to the top-level `party` unless `roles` has a truthy
  `part`.
- `proPublicaBillToMongo` reads `senate__passage`, with two underscores.
- Congress-suffix stripping of bill ids does not exist anywhere in the
  code.

## Model

| member | source | states |
|---|---|---|
| Store.Insert | members/member-utils.js:38 | `create` adds the new key, holding the new document, at the end of the natural order, and keeps the collection valid. Every other document is unchanged. |
| Store.Save | members/member-utils.js:48 | `save` of a stored document rewrites that document only. The keys and the order stay the same, and validity is preserved. |
| Store.FindOne | members/member-utils.js:35 | `findOne` by the unique key finds a document exactly when one is stored under that key, and it is that document. |
| Store.MapAll | members/router.js:9-11 | `find().map(f)` has one entry per stored document, in natural order. Every document's image is in it. |
| Store.Where | members/router.js:34-35 | A keyed `find` returns a document if and only if its key satisfies the filter. |
| Store.WhereOnce | members/router.js:34-35 | The matching keys are distinct. The i-th result is the document of the i-th matching key. |
| Store.WhereKeysAgree | members/router.js:34-35 | Two filters that agree on every stored key select the same documents. |
| BillModels.NewBill | bills/models.js:3-32 | A bill is created if and only if `billId`, `number` and `title` are non-empty strings. Otherwise the store gives a validation error. The created record carries those strings, an empty `cosponsors` array, and the nine other fields (`shortTitle`, `sponsor`, `introducedDate`, `enacted`, the two passage dates, `summary`, `summaryShort`, `subject`) and `lastUpdated` as given. |
| BillModels.Serialize | bills/models.js:34-50 | `billId` goes out as `id`. `number` and `title` go out as strings. The other ten fields are copied when defined and omitted when undefined. `lastUpdated` and `billId` are never keys. |
| BillModels.SerializeIgnoresLastUpdated | bills/models.js:34-50 | Changing `lastUpdated` does not change the serialization. |
| BillModels.SerializeKeepsId | bills/models.js:36 | Bills with equal serializations have equal `billId`s. |
| BillUtils.ProPublicaBillToMongo | bills/bill-utils.js:3-19 | The transform throws exactly on a null item. Otherwise each of the twelve fields comes from its upstream key: `billId`, `number`, `title`, `shortTitle`, `introducedDate`, `enacted` and `summary` from `bill_id`, `number`, `title`, `short_title`, `introduced_date`, `enacted` and `summary`; `sponsor`, `subject` and `summaryShort` from `sponsor_id`, `primary_subject` and `summary_short`; the two passage dates from `house_passage` and `senate__passage`. `lastUpdated` is the clock. |
| BillUtils.ProPublicaBillsToMongo | bills/router.js:24 | `bills.map(proPublicaBillToMongo)` succeeds if and only if no item is null. It then has one record per item, in order. |
| BillUtils.TransformReadsUpstreamKeys | bills/bill-utils.js:4-18 | Upstream objects that agree on the twelve keys the transform reads give the same record. |
| BillUtils.SenatePassageKey | bills/bill-utils.js:13 | A bill that has only `senate_passage` is stored with no Senate-passage date. |
| BillUtils.TransformDependsOnClockOnlyInLastUpdated | bills/bill-utils.js:3-19 | Transforms of the same bill at two instants differ in `lastUpdated` at most. |
| BillUtils.StoredTransformServesUpstreamId | bills/models.js:34-50 | A stored transformed bill is served with the upstream `bill_id` as `id`. `lastUpdated` is not served, and it holds the clock. |
| BillRouter.TransformedList | bills/router.js:13-24 | An upstream `ERROR` status rejects with the 500 "error retrieving data from propublica". Otherwise the result is the transform of `results[0].bills`. |
| BillRouter.UpstreamBills | bills/router.js:23-24 | `results[0].bills` is read and mapped over: reading `results[0]` off a missing `results`, `bills` off an undefined or null first result, or calling `map` on a non-array throws a `TypeError`. Otherwise the items are the elements of that array. |
| BillRouter.ListBills | bills/router.js:22-31 | A failed transform gives a 500 with the route's message and hands nothing to `addMultipleBills`. Otherwise the batch handed over is `serializeBill` of each transformed item, in order. The response is 200 `{bills}` of that batch if `addMultipleBills` settles, and the 500 otherwise. |
| BillRouter.Recent | bills/router.js:8-32 | `GET /recent` always calls upstream. It answers the 500 "Error retrieving recent bills" exactly when the transform or `addMultipleBills` fails, and otherwise 200 `{bills}` with the batch it handed to `addMultipleBills`. |
| BillRouter.Search | bills/router.js:34-65 | A falsy `term` gives the 422 `MissingSearchTerm` body and makes no upstream call, and only a falsy term gives that body. Otherwise the route is the shared list logic with "Error searhing for bills". |
| BillRouter.ErrorStatusRejectsList | bills/router.js:14-19 | An `ERROR` status makes `/recent` and `/search` answer 500 with their own messages, with nothing upserted. |
| BillRouter.RecentListsUpstreamInOrder | bills/router.js:23-27 | On success `/recent` answers 200 with one entry per upstream item, in upstream order. Each entry is `serializeBill` of the transformed item. |
| BillRouter.NeedsBackfill | bills/router.js:71 | A bill needs the backfill exactly when its serialization has no `cosponsors` or an empty `cosponsors` array. |
| BillRouter.MapField | bills/router.js:83 | `items.map(x => x.key)` throws exactly on a null item. Otherwise it reads `key` of each item, in order. |
| BillRouter.UpstreamCosponsors | bills/router.js:83 | `results[0].cosponsors` is read and mapped over, and throws a `TypeError` as `results[0].bills` does. |
| BillRouter.CosponsorIds | bills/router.js:72-83 | An upstream `ERROR` rejects with the 500 "error retrieving data from propublica". Otherwise the cosponsor ids are the `cosponsor_id` of each upstream cosponsor, in order, and any other failure, a null entry included, is a `TypeError`. |
| BillRouter.GetBill | bills/router.js:67-95 | An unknown id gives the 500 "Unable to fulfill request", with no upstream call and no write. A bill with cosponsors is served as stored, with no upstream call. Otherwise the cosponsor ids replace `cosponsors`, and the bill is saved and served. A failed backfill gives the 500 and writes nothing. |
| BillRouter.BackfillChangesOnlyCosponsors | bills/router.js:83-84 | After `GET /:id`, the store is valid and has the same keys and order. Other bills are unchanged. The requested bill differs at most in `cosponsors`. |
| BillRouter.BackfillIdsInUpstreamOrder | bills/router.js:83 | The backfilled ids are the `cosponsor_id` of each upstream cosponsor, in order. |
| BillRouter.GetBillSettlesAfterBackfill | bills/router.js:71-88 | Once a backfill has stored at least one cosponsor, asking again gives the same response, with no upstream call and no write. |
| BillRouter.FreshBillNeedsBackfill | bills/bill-utils.js:4-18 | A freshly transformed and stored bill always qualifies for the backfill. |
| MemberModels.NewMember | members/models.js:3-34 | A member is created if and only if `firstName` and `lastName` are non-empty strings. It keeps `memberId`, `shortTitle`, `chamber`, `title`, `party`, `state`, `crpId`, `website`, `nextElection`, `portrait` and `lastUpdated` as given. Its four array fields start empty. |
| MemberModels.Serialize | members/models.js:36-54 | The serialization has only the fifteen view keys. Each key carries the field it names when that field is defined, and is absent otherwise. |
| MemberModels.SerializeFields | members/models.js:36-54 | The fields key by key: names and the three exposed arrays are always present, the other ten fields are copied when defined, and `topIndustries` and `lastUpdated` are never keys. |
| MemberModels.SerializeIgnoresHiddenFields | members/models.js:36-54 | Changing `topIndustries` or `lastUpdated` does not change the serialization. |
| MemberModels.SerializeHasTestedKeys | test/server.test.js:52-54 | A member with the seeded fields serializes with every key the API test asserts. |
| MemberModels.MemberModel.Create | members/member-utils.js:38-42 | `Member.create` on an unused id returns the schema's verdict. On success it inserts that record at the end of the order. On failure it changes nothing. |
| MemberModels.MemberModel.Save | members/member-utils.js:48 | `member.save()` rewrites that one record, and the store stays valid. |
| MemberModels.MemberModel.Find | members/member-utils.js:35 | `Member.findOne({memberId})` on the object finds exactly the record stored under that id. |
| MemberUtils.IndexOf | members/member-utils.js:76 | `indexOf` gives the first position of the element, or -1 exactly when the element is absent. |
| MemberUtils.RemoveDuplicates | members/member-utils.js:74-78 | `removeDuplicates` returns a list with no repeated element that holds exactly the elements of its input. |
| MemberUtils.RemoveDuplicatesFirstOccurrenceOrder | members/member-utils.js:75-77 | The output lists elements by strictly increasing first-occurrence position in the input. |
| MemberUtils.RemoveDuplicatesSubsequence | members/member-utils.js:75-77 | The output is a subsequence of the input: increasing positions pick it out. |
| MemberUtils.RemoveDuplicatesOfDistinct | members/member-utils.js:75-77 | On a list without duplicates the output equals the input. |
| MemberUtils.RemoveDuplicatesIdempotent | members/member-utils.js:74-78 | Applying `removeDuplicates` twice gives the same as applying it once. |
| MemberUtils.MergeKeepsOld | members/member-utils.js:66-67 | De-duplicating `old ++ new` starts with the de-duplicated `old`. It holds exactly the old and new elements. |
| MemberUtils.MergeExample | members/member-utils.js:66-67 | Merging `[A, B]` with `[B, C]` gives `[A, B, C]`. |
| MemberUtils.ProPublicaMemberToMongo | members/member-utils.js:118-134 | The transform throws exactly when the member or its `roles` is undefined or null. Names, `crpId`, `memberId`, `website` and `nextElection` come from `first_name`, `last_name`, `crp_id`, `member_id`, `url` and `nextElection`. `portrait` is the image prefix + `member_id` + `.jpg`, and `lastUpdated` is the clock. |
| MemberUtils.MemberTransformFallsBack | members/member-utils.js:122-126 | `shortTitle`, `chamber`, `title` and `state` take a truthy `roles` value of the same name, and fall back to the top-level value otherwise. `party` takes a truthy `roles.part`, and falls back to `party` otherwise. |
| MemberUtils.PartyIgnoresRolesParty | members/member-utils.js:125 | A `roles.party` is never read. Without `roles.part`, the top-level `party` is stored. |
| MemberUtils.PortraitFromMemberId | members/member-utils.js:131 | For a string `member_id` the portrait is the prefix, then the id, then `.jpg`. |
| MemberUtils.MemberTransformDependsOnClockOnlyInLastUpdated | members/member-utils.js:132 | Transforms of the same member at two instants differ in `lastUpdated` at most. |
| MemberUtils.SpecificMember | members/member-utils.js:17-25 | A null response throws. A falsy `results` rejects with the 404 "Error retrieving data from propublica". Otherwise the result is `results[0]`. |
| MemberUtils.MemberBills | members/member-utils.js:88-96 | A null response throws. A falsy `results` rejects with a 404 that names the list and the member id. Otherwise the result is `results[0].bills`, or a throw when `results[0]` is undefined or null. |
| MemberUtils.UpdateFrom | members/member-utils.js:44-46 | The `forEach` over `updateableFields` sets `shortTitle`, `chamber`, `title`, `party` and `lastUpdated` from the transform. Every other field is kept. |
| MemberUtils.BillIds | members/member-utils.js:53 | There is one id per transformed bill: the i-th is the i-th bill's `billId`. |
| MemberUtils.FetchedBills | members/member-utils.js:51-52 | A rejected fetch rejects the step with its own error. Otherwise the step succeeds exactly when the fetched `bills` is an array with no null entry, and it then holds the transform of each entry, in order; a failure is a `TypeError`. |
| MemberUtils.FetchedIds | members/member-utils.js:51-54 | The ids a fetch step collects: a failed fetch or transform rejects with its error, then a failed `addMultipleBills` with its own. Only when both succeed are there ids, one `billId` per transformed bill, in order. |
| MemberUtils.FetchedIdsAreUpstreamIds | members/member-utils.js:52-53 | The ids collected from a fetched list are the upstream `bill_id`s, in upstream order. |
| MemberUtils.UpsertBase | members/member-utils.js:35-49 | For an absent id the result is the schema's verdict on the transformed record, and for a stored one it is the stored record with the allow-listed fields from the transform. No other record is touched, both bill lists are kept, the store stays valid, and nothing changes on failure. |
| MemberUtils.MergeBillLists | members/member-utils.js:66-69 | Merging changes only the two bill lists. Each comes out without repeats, starts with the de-duplicated old list, and holds exactly the old and new ids. |
| MemberUtils.MergeFetched | members/member-utils.js:50-71 | Given what the two fetches yield, the first failure rejects with its own error and leaves the store as it was, and only a failure rejects. On success the one record gets both de-duplicated concatenations of its stored list and the collected ids, is saved, and is what the promise settles with. Keys, order, validity and every other record are kept. |
| MemberUtils.AddMemberSpec | members/member-utils.js:28-72 | `addMember` keeps the member store valid. No record is deleted, only the upstream `member_id` can be added, the order only grows at its end, and every other member is unchanged. A member that cannot be transformed rejects with a `TypeError` and nothing written. |
| MemberUtils.AddTransformed | members/member-utils.js:35-71 | From the transformed record on, `addMember` keeps the store valid and touches no record but the one under that record's `memberId`, which it may add at the end of the order. |
| MemberUtils.AddMemberCreatesTransformedRecord | members/member-utils.js:35-42 | For an absent id the stored record is exactly the created one, apart from its bill lists, and is placed at the end of the order. A record the schema refuses rejects with nothing written. |
| MemberUtils.AddMemberUpdatesAllowListOnly | members/member-utils.js:44-48 | For a stored id, the five allow-listed fields come from the transform. Restoring them and the two bill lists gives back the old record. The order is unchanged. |
| MemberUtils.AddMemberMergesBillLists | members/member-utils.js:64-70 | When `addMember` succeeds, each stored list is `removeDuplicates(old ++ collected ids)`. The promise settles with the saved record. |
| MemberUtils.MergeAfterUpsert | members/member-utils.js:44-70 | After a successful upsert and merge, each list of the saved record is `removeDuplicates` of the list stored before the upsert (empty for a new member) followed by the collected ids. |
| MemberUtils.AddMemberKeepsOldBillIds | members/member-utils.js:66-67 | After success no old id is dropped, the de-duplicated old list is a prefix, and neither list repeats an id. |
| MemberUtils.MergedListFacts | members/member-utils.js:66-67 | A merged list has no repeated element, starts with the de-duplicated old list, and contains every old element. |
| MemberUtils.AddMemberFailureKeepsEarlierWrites | members/member-utils.js:50-63 | After a successful upsert, a failed first fetch or `addMultipleBills` rejects with that error, and so does a failed second one after a successful first. In both cases the upserted record stays written. |
| MemberUtils.PushBillIds | members/member-utils.js:53 | The `forEach(... push(bill.billId))` loop appends the transformed bills' ids, in order. |
| MemberUtils.CollectIds | members/member-utils.js:51-63 | One fetch step succeeds exactly when the fetch, the transform of every upstream bill and `addMultipleBills` all do. It then holds the list followed by the upstream ids; otherwise it fails with the first error. |
| MemberUtils.ApplyUpdates | members/member-utils.js:44-46 | The loop over `updateableFields` computes `UpdateFrom`. |
| MemberUtils.Upsert | members/member-utils.js:35-49 | The imperative `findOne` then `create`, or overwrite then `save`, leaves the collection and result `UpsertBase` gives. |
| MemberUtils.MergeFetchedInto | members/member-utils.js:50-71 | The imperative fetch, push, re-read and save leaves the collection and result `MergeFetched` gives. |
| MemberUtils.AddMember | members/member-utils.js:28-72 | The imperative `addMember` against the member collection settles with, and leaves the collection as, `AddMemberSpec` says. |
| MemberRouter.ListMembers | members/router.js:7-17 | `GET /` answers 200 with one serialized member per stored member, in natural order. Every stored member is listed. |
| MemberRouter.GetMember | members/router.js:19-27 | `GET /:memberId` answers 200 with the serialization of the member with that id, and 500 "Unexpected error retrieving data" when there is none. |
| MemberRouter.BillsOf | members/router.js:34-35 | The `$in` query returns exactly the stored bills whose `billId` is listed. |
| MemberRouter.ListedIds | members/router.js:34 | The `$in` list has every sponsored and every cosponsored id, and nothing else: its length is the sum of the two lengths. |
| MemberRouter.FoundBills | members/router.js:35-37 | Each returned entry carries in `id` the id of a stored bill that the member lists, and is the serialization of that stored bill. |
| MemberRouter.MemberBills | members/router.js:29-45 | An unknown member gives, and only an unknown member gives, the 500 "Could not find bills for specified member". Otherwise the route answers 200 `{bills}` with the member's found bills. |
| MemberRouter.FoundBillsExact | members/router.js:33-38 | A serialized bill is returned if and only if it is a stored bill whose id is in `billsSponsored ++ billsCosponsored`. |
| MemberRouter.FoundBillsOnce | members/router.js:34-35 | No bill is returned twice, even when its id is in both lists. |
| MemberRouter.FoundBillsOmitsUnstored | members/router.js:34-37 | Listing an id that has no stored bill changes nothing in the answer. |

## Left out

- Network I/O is not modelled: the `fetch` calls, URL building, the API key header and `res.json()`. A network rejection or a body that is not JSON is left out. Each fetcher enters with its parsed response.
- The effect of `addMultipleBills` on the bill store is left abstract, because the function is not defined in the repository. Only whether it settles or rejects is an input.
- `getRecentlyEnactedBills`, `searchForBill`, `getCosponsorsFor` and `serializeBill` are imported but not defined. Each enters as what it resolves to.
- Mongoose casting is not modelled. Mongoose casts a number or boolean to a string before the `required` check, so a numeric `billId`, `number`, `title`, `firstName` or `lastName` that Mongoose accepts is refused in the model with a validation error. An object or array in an optional `String` field makes Mongoose's create or save reject, but the model stores it. A number is also not cast when compared with `$in`.
- Strings are sequences of Unicode scalar values, so `First` on a string returns one character where JavaScript returns one UTF-16 code unit. `IntText` writes an integer of 1e21 or more in full, where JavaScript writes exponent notation.
- `findOne` with an undefined filter value drops the condition in Mongoose. The model looks the key `undefined` up instead.
- `Date` typing of `lastUpdated` is not modelled: the clock is an integer.
- The schema default of `lastUpdated` is not modelled, because both transforms always supply it.
- Store.Save: the model does not capture save-time validation failures. No modelled save changes a required field, so the failure path that remains is the database's own I/O.
- MemberUtils.IndexOf: `indexOf` compares objects by reference in JavaScript. The model compares values, which agrees for the string ids the lists hold.
- Inherited properties such as `length` are not modelled. A property read sees only an object's own keys, plus the index reads `First` models.
- Numbers are integers. Floating point is not modelled.
- Promise concurrency and interleaving of requests are not modelled: each handler runs to completion, and one clock value serves a request.
- `console.error` logging is left out.
- `server.js` is process bootstrap and mounts none of these routers, so it is not part of this model.
- `test/server.test.js` seeds a database over I/O. It is used only for the key set the member serialization must have.
- A `proPublicaMemberToMongo` failure throws synchronously before `addMember` returns its promise. The model reports it as the same `TypeError` rejection.
