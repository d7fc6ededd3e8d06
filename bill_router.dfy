/**
 * The decisions of the bill routes: the search-term guard, the rejection of
 * an upstream `ERROR` status, the response built from the transformed
 * upstream list, and the cosponsor backfill of `GET /:id`.
 *
 * The upstream helpers these routes import are not part of this model; each
 * enters as what it resolves to (a `Reply`). `serializeBill` enters as a
 * function parameter, and the outcome of `addMultipleBills` as an `Outcome`.
 */
module BillRouter {
  import opened Js
  import opened Store
  import opened BillModels
  import opened BillUtils

  /** What an upstream helper resolves to: its `status` property and the JSON its `json()` yields. */
  datatype Reply = Reply(status: Value, body: Json)

  predicate IsErrorStatus(reply: Reply) {
    reply.status == Some(JStr("ERROR"))
  }

  const UpstreamFailure := Rejected(500, "error retrieving data from propublica")

  /** `proPubRes.results[0].bills`, taken as the array `.map` runs over. */
  function UpstreamBills(body: Json): (r: Result<seq<Json>>)
    ensures r.Err? ==> r.error == TypeError
    ensures r.Ok? <==> FirstResult(body).Ok? && Defined(FirstResult(body).value)
                       && Field(FirstResult(body).value, "bills").Some?
                       && Field(FirstResult(body).value, "bills").value.JArr?
    ensures r.Ok? ==> Field(FirstResult(body).value, "bills") == Some(JArr(r.value))
  {
    var first :- FirstResult(body);
    var bills :- Prop(first, "bills");
    Items(bills)
  }

  /** The upstream list, transformed: the `ERROR` status rejects before the body is read. */
  function TransformedList(reply: Reply, now: int): (r: Result<seq<BillInput>>)
    ensures IsErrorStatus(reply) ==> r == Err(UpstreamFailure)
    ensures !IsErrorStatus(reply) && UpstreamBills(reply.body).Err? ==> r.Err?
    ensures !IsErrorStatus(reply) && UpstreamBills(reply.body).Ok? ==>
              r == ProPublicaBillsToMongo(UpstreamBills(reply.body).value, now)
  {
    if IsErrorStatus(reply) then Err(UpstreamFailure)
    else
      var bills :- UpstreamBills(reply.body);
      ProPublicaBillsToMongo(bills, now)
  }

  /**
   * What a list route did: its response, whether it called upstream, and the
   * batch it handed to `addMultipleBills` (`None` when it never got there).
   */
  datatype ListOutcome = ListOutcome(response: Response, upstreamCalled: bool, upserted: Option<seq<Json>>)

  function BillsBody(bills: seq<Json>): Json {
    JObj(map["bills" := JArr(bills)])
  }

  /** The part `/recent` and `/search` share once upstream has answered. */
  function ListBills(reply: Reply, serializeBill: BillInput -> Json, upsert: Outcome, now: int, failure: string)
    : (o: ListOutcome)
    ensures o.upstreamCalled
    ensures o.response.status == 200 || o.response == Response(500, Message(failure))
    ensures TransformedList(reply, now).Err? ==> o.response.status == 500 && o.upserted == None
    ensures TransformedList(reply, now).Ok? ==>
      var fs := TransformedList(reply, now).value;
      && o.upserted.Some?
      && |o.upserted.value| == |fs|
      && (forall i :: 0 <= i < |fs| ==> o.upserted.value[i] == serializeBill(fs[i]))
      && o.response == (if upsert.Pass? then Response(200, BillsBody(o.upserted.value))
                        else Response(500, Message(failure)))
  {
    match TransformedList(reply, now)
    case Err(_) => ListOutcome(Response(500, Message(failure)), true, None)
    case Ok(fs) =>
      var billsToReturn := seq(|fs|, i requires 0 <= i < |fs| => serializeBill(fs[i]));
      var response := if upsert.Pass? then Response(200, BillsBody(billsToReturn))
                      else Response(500, Message(failure));
      ListOutcome(response, true, Some(billsToReturn))
  }

  /** `GET /recent` */
  function Recent(reply: Reply, serializeBill: BillInput -> Json, upsert: Outcome, now: int): (o: ListOutcome)
    ensures o.upstreamCalled
    ensures o.response == Response(500, Message("Error retrieving recent bills"))
            <==> TransformedList(reply, now).Err? || upsert.Fail?
    ensures o.response.status != 500 ==> o.upserted.Some? && o.response == Response(200, BillsBody(o.upserted.value))
  {
    ListBills(reply, serializeBill, upsert, now, "Error retrieving recent bills")
  }

  const MissingSearchTerm := Response(422, JObj(map[
    "code" := JNum(422), "status" := JNum(422),
    "reason" := JStr("MissingSearchTerm"), "message" := JStr("term query is required")]))

  /** `GET /search?term=`; `term` is the query parameter, `reply` what the search resolves to. */
  function Search(term: Value, reply: Reply, serializeBill: BillInput -> Json, upsert: Outcome, now: int)
    : (o: ListOutcome)
    ensures !Truthy(term) <==> o.response == MissingSearchTerm
    ensures !Truthy(term) ==> !o.upstreamCalled && o.upserted == None
    ensures Truthy(term) ==> o == ListBills(reply, serializeBill, upsert, now, "Error searhing for bills")
  {
    if !Truthy(term) then ListOutcome(MissingSearchTerm, false, None)
    else ListBills(reply, serializeBill, upsert, now, "Error searhing for bills")
  }

  /** An upstream `ERROR` fails the list routes with a 500 before anything is handed to the store. */
  lemma ErrorStatusRejectsList(term: Value, reply: Reply, serializeBill: BillInput -> Json, upsert: Outcome, now: int)
    requires IsErrorStatus(reply)
    ensures var o := Recent(reply, serializeBill, upsert, now);
      o.response == Response(500, Message("Error retrieving recent bills")) && o.upserted == None
    ensures Truthy(term) ==>
      var o := Search(term, reply, serializeBill, upsert, now);
      o.response == Response(500, Message("Error searhing for bills")) && o.upserted == None
  {
  }

  /**
   * On success the response lists one entry per upstream item, in upstream
   * order, each the serialization of the transformed item.
   */
  lemma RecentListsUpstreamInOrder(reply: Reply, serializeBill: BillInput -> Json, now: int)
    requires !IsErrorStatus(reply) && UpstreamBills(reply.body).Ok?
    requires forall j :: j in UpstreamBills(reply.body).value ==> j != JNull
    ensures var items := UpstreamBills(reply.body).value;
      exists out: seq<Json> ::
        && Recent(reply, serializeBill, Pass, now).response == Response(200, BillsBody(out))
        && |out| == |items|
        && forall i :: 0 <= i < |items| ==> out[i] == serializeBill(ProPublicaBillToMongo(items[i], now).value)
  {
    var items := UpstreamBills(reply.body).value;
    assert forall i :: 0 <= i < |items| ==> items[i] in items;
    var o := Recent(reply, serializeBill, Pass, now);
    var out := o.upserted.value;
    assert o.response == Response(200, BillsBody(out));
  }

  /** A bill whose `cosponsors` is absent or empty: `!bill.cosponsors || bill.cosponsors.length < 1`. */
  predicate NeedsBackfill(b: Bill)
    ensures NeedsBackfill(b) <==> "cosponsors" !in Serialize(b) || Serialize(b)["cosponsors"] == JArr([])
  {
    b.cosponsors.None? || |b.cosponsors.value| < 1
  }

  /** `items.map(x => x.key)`: the first null item throws. */
  function MapField(items: seq<Json>, key: string): (r: Result<seq<Value>>)
    ensures r.Ok? <==> forall i :: 0 <= i < |items| ==> items[i] != JNull
    ensures r.Err? ==> r.error == TypeError
    ensures r.Ok? ==> |r.value| == |items|
    ensures r.Ok? ==> forall i :: 0 <= i < |items| ==> r.value[i] == Field(Some(items[i]), key)
  {
    if items == [] then Ok([])
    else if items[0] == JNull then Err(TypeError)
    else
      var rest :- MapField(items[1..], key);
      assert forall i :: 1 <= i < |items| ==> items[i] == items[1..][i - 1];
      Ok([Field(Some(items[0]), key)] + rest)
  }

  /** `results[0].cosponsors`, taken as the array `.map` runs over. */
  function UpstreamCosponsors(body: Json): (r: Result<seq<Json>>)
    ensures r.Err? ==> r.error == TypeError
    ensures r.Ok? <==> FirstResult(body).Ok? && Defined(FirstResult(body).value)
                       && Field(FirstResult(body).value, "cosponsors").Some?
                       && Field(FirstResult(body).value, "cosponsors").value.JArr?
    ensures r.Ok? ==> Field(FirstResult(body).value, "cosponsors") == Some(JArr(r.value))
  {
    var first :- FirstResult(body);
    var cosponsors :- Prop(first, "cosponsors");
    Items(cosponsors)
  }

  /** `proPubJSON.results[0].cosponsors.map(cosponsor => cosponsor.cosponsor_id)`, after the status check. */
  function CosponsorIds(reply: Reply): (r: Result<seq<Value>>)
    ensures IsErrorStatus(reply) ==> r == Err(UpstreamFailure)
    ensures !IsErrorStatus(reply) && r.Err? ==> r.error == TypeError
    ensures r.Ok? <==> !IsErrorStatus(reply) && UpstreamCosponsors(reply.body).Ok?
                       && var items := UpstreamCosponsors(reply.body).value;
                          forall i :: 0 <= i < |items| ==> items[i] != JNull
    ensures r.Ok? ==>
              var items := UpstreamCosponsors(reply.body).value;
              |r.value| == |items| && forall i :: 0 <= i < |items| ==> r.value[i] == Field(Some(items[i]), "cosponsor_id")
  {
    if IsErrorStatus(reply) then Err(UpstreamFailure)
    else
      var items :- UpstreamCosponsors(reply.body);
      MapField(items, "cosponsor_id")
  }

  /** What `GET /:id` did: its response, whether it asked upstream for cosponsors, and the store after it. */
  datatype BillOutcome = BillOutcome(response: Response, upstreamCalled: bool, store: BillStore)

  const UnableToFulfill := Response(500, Message("Unable to fulfill request"))

  /**
   * `GET /:id`. An unknown id dereferences a null record, which the catch
   * turns into a 500; a bill with cosponsors is served as stored; otherwise
   * the cosponsor ids replace `cosponsors`, the bill is saved and served.
   */
  function GetBill(store: BillStore, id: string, reply: Reply): (o: BillOutcome)
    ensures id !in store.docs ==> o == BillOutcome(UnableToFulfill, false, store)
    ensures id in store.docs && !NeedsBackfill(store.docs[id]) ==>
              o == BillOutcome(Response(200, JObj(Serialize(store.docs[id]))), false, store)
    ensures id in store.docs && NeedsBackfill(store.docs[id]) ==> o.upstreamCalled
    ensures id in store.docs && NeedsBackfill(store.docs[id]) && CosponsorIds(reply).Err? ==>
              o.response == UnableToFulfill && o.store == store
    ensures id in store.docs && NeedsBackfill(store.docs[id]) && CosponsorIds(reply).Ok? ==>
              var saved := store.docs[id].(cosponsors := Some(CosponsorIds(reply).value));
              o.store == Save(store, id, saved) && o.response == Response(200, JObj(Serialize(saved)))
  {
    match FindOne(store, id)
    case None => BillOutcome(UnableToFulfill, false, store)
    case Some(bill) =>
      if NeedsBackfill(bill) then
        match CosponsorIds(reply)
        case Err(_) => BillOutcome(UnableToFulfill, true, store)
        case Ok(ids) =>
          var saved := bill.(cosponsors := Some(ids));
          BillOutcome(Response(200, JObj(Serialize(saved))), true, Save(store, id, saved))
      else BillOutcome(Response(200, JObj(Serialize(bill))), false, store)
  }

  /**
   * The backfill replaces `cosponsors` and nothing else: the other fields of
   * the bill, the other bills and the set of stored ids stay as they were,
   * and the store stays valid.
   */
  lemma BackfillChangesOnlyCosponsors(store: BillStore, id: string, reply: Reply)
    requires ValidStore(store)
    ensures var o := GetBill(store, id, reply);
      && ValidStore(o.store)
      && o.store.docs.Keys == store.docs.Keys
      && o.store.order == store.order
      && (forall k :: k in store.docs && k != id ==> o.store.docs[k] == store.docs[k])
      && (id in store.docs ==> o.store.docs[id].(cosponsors := store.docs[id].cosponsors) == store.docs[id])
  {
    var o := GetBill(store, id, reply);
    if id in store.docs && NeedsBackfill(store.docs[id]) && CosponsorIds(reply).Ok? {
      var saved := store.docs[id].(cosponsors := Some(CosponsorIds(reply).value));
      assert o.store == Save(store, id, saved);
      assert forall k :: k in o.store.docs ==> o.store.docs[k].billId == k && ValidBill(o.store.docs[k]);
    }
  }

  /** The backfilled ids are the upstream cosponsors' `cosponsor_id`s, in upstream order. */
  lemma BackfillIdsInUpstreamOrder(reply: Reply, entries: seq<Json>)
    requires !IsErrorStatus(reply)
    requires UpstreamCosponsors(reply.body) == Ok(entries)
    requires forall i :: 0 <= i < |entries| ==> entries[i] != JNull
    ensures CosponsorIds(reply).Ok?
    ensures |CosponsorIds(reply).value| == |entries|
    ensures forall i :: 0 <= i < |entries| ==> CosponsorIds(reply).value[i] == Field(Some(entries[i]), "cosponsor_id")
  {
  }

  /**
   * Once a backfill has stored at least one cosponsor, asking for the bill
   * again serves the same response without calling upstream.
   */
  lemma GetBillSettlesAfterBackfill(store: BillStore, id: string, reply: Reply, later: Reply)
    requires id in store.docs && NeedsBackfill(store.docs[id])
    requires CosponsorIds(reply).Ok? && |CosponsorIds(reply).value| > 0
    ensures var o := GetBill(store, id, reply);
      var again := GetBill(o.store, id, later);
      again.response == o.response && !again.upstreamCalled && again.store == o.store
  {
  }

  /**
   * A freshly transformed bill, once stored, always qualifies for the
   * backfill: the transform writes no `cosponsors`, and the store starts the
   * array out empty.
   */
  lemma FreshBillNeedsBackfill(bill: Json, now: int)
    requires bill != JNull
    requires NewBill(ProPublicaBillToMongo(bill, now).value).Ok?
    ensures NeedsBackfill(NewBill(ProPublicaBillToMongo(bill, now).value).value)
  {
  }
}
