/**
 * The bill schema: the document a bill is stored as, its required and unique
 * fields, and the `serialize` projection that decides which fields leave the
 * store.
 */
module BillModels {
  import opened Js
  import opened Store

  /**
   * The plain object handed to the store for a new bill, as the bill transform
   * builds it. It has no `cosponsors` property.
   */
  datatype BillInput = BillInput(
    billId: Value, number: Value, title: Value, shortTitle: Value, sponsor: Value,
    introducedDate: Value, enacted: Value, housePassage: Value, senatePassage: Value,
    summary: Value, summaryShort: Value, subject: Value, lastUpdated: int)

  /**
   * A stored bill. `billId`, `number` and `title` are required strings; the
   * other string fields hold what was assigned to them; `cosponsors` is an
   * untyped array, `None` when the document lacks it.
   */
  datatype Bill = Bill(
    billId: string, number: string, title: string, shortTitle: Value, sponsor: Value,
    cosponsors: Option<seq<Value>>, introducedDate: Value, enacted: Value,
    housePassage: Value, senatePassage: Value, summary: Value, summaryShort: Value,
    subject: Value, lastUpdated: int)

  predicate ValidBill(b: Bill) {
    b.billId != "" && b.number != "" && b.title != ""
  }

  /** The bill collection: `billId` is unique, so it is the key. */
  type BillStore = Collection<string, Bill>

  ghost predicate ValidStore(c: BillStore) {
    Valid(c) && forall k :: k in c.docs ==> c.docs[k].billId == k && ValidBill(c.docs[k])
  }

  /**
   * Creating a bill document: refused unless the three required fields are
   * present; an array field starts out empty.
   */
  function NewBill(f: BillInput): (r: Result<Bill>)
    ensures r.Ok? <==> Required(f.billId) && Required(f.number) && Required(f.title)
    ensures r.Err? ==> r.error == ValidationError
    ensures r.Ok? ==> ValidBill(r.value) && r.value.cosponsors == Some([])
    ensures r.Ok? ==> Some(JStr(r.value.billId)) == f.billId && Some(JStr(r.value.number)) == f.number
                      && Some(JStr(r.value.title)) == f.title
    ensures r.Ok? ==> r.value.lastUpdated == f.lastUpdated
    ensures r.Ok? ==> r.value.shortTitle == f.shortTitle && r.value.sponsor == f.sponsor
                      && r.value.introducedDate == f.introducedDate && r.value.enacted == f.enacted
                      && r.value.housePassage == f.housePassage && r.value.senatePassage == f.senatePassage
                      && r.value.summary == f.summary && r.value.summaryShort == f.summaryShort
                      && r.value.subject == f.subject
  {
    if Required(f.billId) && Required(f.number) && Required(f.title) then
      Ok(Bill(RequiredText(f.billId), RequiredText(f.number), RequiredText(f.title), f.shortTitle,
              f.sponsor, Some([]), f.introducedDate, f.enacted, f.housePassage, f.senatePassage,
              f.summary, f.summaryShort, f.subject, f.lastUpdated))
    else Err(ValidationError)
  }

  /** The keys a serialized bill can have. */
  const BillViewKeys: set<string> := {"id", "number", "title", "shortTitle", "sponsor", "cosponsors",
    "introducedDate", "enacted", "housePassage", "senatePassage", "summary", "summaryShort", "subject"}

  function CosponsorsValue(cs: Option<seq<Value>>): Value {
    match cs
    case None => None
    case Some(list) => Some(JArr(ArrayJson(list)))
  }

  /** The value `serialize` puts under `key`; undefined for a key it does not write. */
  function ViewProp(b: Bill, key: string): Value {
    match key
    case "id" => Some(JStr(b.billId))
    case "number" => Some(JStr(b.number))
    case "title" => Some(JStr(b.title))
    case "shortTitle" => b.shortTitle
    case "sponsor" => b.sponsor
    case "cosponsors" => CosponsorsValue(b.cosponsors)
    case "introducedDate" => b.introducedDate
    case "enacted" => b.enacted
    case "housePassage" => b.housePassage
    case "senatePassage" => b.senatePassage
    case "summary" => b.summary
    case "summaryShort" => b.summaryShort
    case "subject" => b.subject
    case _ => None
  }

  /**
   * `serialize`, as the JSON object it becomes: the bill's id goes out under
   * `id`, twelve fields go out unchanged, `lastUpdated` stays in the store, and
   * a property that is undefined is left out.
   */
  function Serialize(b: Bill): (r: map<string, Json>)
    ensures r.Keys <= BillViewKeys
    ensures "lastUpdated" !in r && "billId" !in r
    ensures "id" in r && r["id"] == JStr(b.billId)
    ensures "number" in r && r["number"] == JStr(b.number)
    ensures "title" in r && r["title"] == JStr(b.title)
    ensures Copies(r, "shortTitle", b.shortTitle) && Copies(r, "sponsor", b.sponsor)
    ensures Copies(r, "cosponsors", CosponsorsValue(b.cosponsors))
    ensures Copies(r, "introducedDate", b.introducedDate) && Copies(r, "enacted", b.enacted)
    ensures Copies(r, "housePassage", b.housePassage) && Copies(r, "senatePassage", b.senatePassage)
    ensures Copies(r, "summary", b.summary) && Copies(r, "summaryShort", b.summaryShort)
    ensures Copies(r, "subject", b.subject)
  {
    map k | k in BillViewKeys && ViewProp(b, k).Some? :: ViewProp(b, k).value
  }

  /** The projection does not depend on `lastUpdated`. */
  lemma SerializeIgnoresLastUpdated(b: Bill, t: int)
    ensures Serialize(b.(lastUpdated := t)) == Serialize(b)
  {
    var b' := b.(lastUpdated := t);
    forall k ensures ViewProp(b', k) == ViewProp(b, k) {
    }
  }

  /** Two bills with the same serialization have the same `billId`, which goes out as `id`. */
  lemma SerializeKeepsId(a: Bill, b: Bill)
    requires Serialize(a) == Serialize(b)
    ensures a.billId == b.billId
  {
    assert Serialize(a)["id"] == JStr(a.billId);
  }
}
