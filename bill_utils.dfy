/**
 * The bill transform: an upstream bill object becomes the plain object the
 * store is given for it.
 */
module BillUtils {
  import opened Js
  import opened BillModels

  /** The upstream keys the transform reads. */
  const UpstreamBillKeys: set<string> := {"bill_id", "number", "title", "short_title", "sponsor_id",
    "introduced_date", "enacted", "house_passage", "senate__passage", "summary", "summary_short",
    "primary_subject"}

  /**
   * `proPublicaBillToMongo(bill)`, where `now` is what `Date.now()` returns.
   * Reading a property of a null item throws.
   */
  function ProPublicaBillToMongo(bill: Json, now: int): (r: Result<BillInput>)
    ensures r.Ok? <==> bill != JNull
    ensures r.Err? ==> r.error == TypeError
    ensures r.Ok? ==> r.value.billId == Field(Some(bill), "bill_id")
                      && r.value.number == Field(Some(bill), "number")
                      && r.value.title == Field(Some(bill), "title")
    ensures r.Ok? ==> r.value.sponsor == Field(Some(bill), "sponsor_id")
                      && r.value.subject == Field(Some(bill), "primary_subject")
                      && r.value.summaryShort == Field(Some(bill), "summary_short")
    ensures r.Ok? ==> r.value.senatePassage == Field(Some(bill), "senate__passage")
                      && r.value.housePassage == Field(Some(bill), "house_passage")
    ensures r.Ok? ==> r.value.shortTitle == Field(Some(bill), "short_title")
                      && r.value.introducedDate == Field(Some(bill), "introduced_date")
                      && r.value.enacted == Field(Some(bill), "enacted")
                      && r.value.summary == Field(Some(bill), "summary")
    ensures r.Ok? ==> r.value.lastUpdated == now
  {
    var b := Some(bill);
    if !Defined(b) then Err(TypeError)
    else
      Ok(BillInput(
        billId := Field(b, "bill_id"),
        number := Field(b, "number"),
        title := Field(b, "title"),
        shortTitle := Field(b, "short_title"),
        sponsor := Field(b, "sponsor_id"),
        introducedDate := Field(b, "introduced_date"),
        enacted := Field(b, "enacted"),
        housePassage := Field(b, "house_passage"),
        senatePassage := Field(b, "senate__passage"),
        summary := Field(b, "summary"),
        summaryShort := Field(b, "summary_short"),
        subject := Field(b, "primary_subject"),
        lastUpdated := now))
  }

  /** `bills.map(bill => proPublicaBillToMongo(bill))`: the first null item throws. */
  function ProPublicaBillsToMongo(bills: seq<Json>, now: int): (r: Result<seq<BillInput>>)
    ensures r.Ok? <==> forall i :: 0 <= i < |bills| ==> bills[i] != JNull
    ensures r.Err? ==> r.error == TypeError
    ensures r.Ok? ==> |r.value| == |bills|
    ensures r.Ok? ==> forall i :: 0 <= i < |bills| ==> Ok(r.value[i]) == ProPublicaBillToMongo(bills[i], now)
  {
    if bills == [] then Ok([])
    else
      match ProPublicaBillToMongo(bills[0], now)
      case Err(e) => Err(e)
      case Ok(first) =>
        match ProPublicaBillsToMongo(bills[1..], now)
        case Err(e) => Err(e)
        case Ok(rest) =>
          assert forall i :: 1 <= i < |bills| ==> bills[i] == bills[1..][i - 1];
          Ok([first] + rest)
  }

  /** The transform reads only the upstream keys it names: objects that agree on them give the same record. */
  lemma TransformReadsUpstreamKeys(a: map<string, Json>, b: map<string, Json>, now: int)
    requires forall k :: k in UpstreamBillKeys ==> (k in a <==> k in b) && (k in a ==> a[k] == b[k])
    ensures ProPublicaBillToMongo(JObj(a), now) == ProPublicaBillToMongo(JObj(b), now)
  {
    assert "bill_id" in UpstreamBillKeys && "number" in UpstreamBillKeys && "title" in UpstreamBillKeys;
    assert "short_title" in UpstreamBillKeys && "sponsor_id" in UpstreamBillKeys;
    assert "introduced_date" in UpstreamBillKeys && "enacted" in UpstreamBillKeys;
    assert "house_passage" in UpstreamBillKeys && "senate__passage" in UpstreamBillKeys;
    assert "summary" in UpstreamBillKeys && "summary_short" in UpstreamBillKeys;
    assert "primary_subject" in UpstreamBillKeys;
  }

  /**
   * The Senate-passage date is read from `senate__passage` (two underscores):
   * an upstream bill that only has `senate_passage` is stored without one.
   */
  lemma SenatePassageKey(fields: map<string, Json>, date: string, now: int)
    requires "senate__passage" !in fields
    ensures var r := ProPublicaBillToMongo(JObj(fields["senate_passage" := JStr(date)]), now);
      r.Ok? && r.value.senatePassage == None
  {
    var r := ProPublicaBillToMongo(JObj(fields["senate_passage" := JStr(date)]), now);
    assert "senate__passage" != "senate_passage";
  }

  /** Transforming the same bill at two instants gives records that differ at most in `lastUpdated`. */
  lemma TransformDependsOnClockOnlyInLastUpdated(bill: Json, t1: int, t2: int)
    requires bill != JNull
    ensures ProPublicaBillToMongo(bill, t1).value.(lastUpdated := t2) == ProPublicaBillToMongo(bill, t2).value
  {
  }

  /**
   * A transformed bill that the store accepts is served with its upstream
   * `bill_id` as `id`, and its `lastUpdated` is not served.
   */
  lemma StoredTransformServesUpstreamId(bill: Json, now: int)
    requires bill != JNull
    requires NewBill(ProPublicaBillToMongo(bill, now).value).Ok?
    ensures var doc := NewBill(ProPublicaBillToMongo(bill, now).value).value;
      && Some(Serialize(doc)["id"]) == Field(Some(bill), "bill_id")
      && "lastUpdated" !in Serialize(doc)
      && doc.lastUpdated == now
  {
  }
}
