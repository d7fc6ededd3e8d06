/**
 * The member routes: the list of every stored member, one member by id, and
 * the stored bills a member sponsored or cosponsored. Each handler is a
 * function of the two collections and the route parameter.
 */
module MemberRouter {
  import opened Js
  import opened Store
  import BillModels
  import MemberModels

  /** The body of a 500 from `GET /` and `GET /:memberId`: a bare JSON string. */
  const UnexpectedError := Response(500, JStr("Unexpected error retrieving data"))

  const NoBillsForMember := Response(500, Message("Could not find bills for specified member"))

  /** A serialized member, as an element of a response body. */
  function MemberJson(m: MemberModels.Member): Json {
    JObj(MemberModels.Serialize(m))
  }

  function BillJson(b: BillModels.Bill): Json {
    JObj(BillModels.Serialize(b))
  }

  /** `GET /`: every stored member, serialized, in natural order. */
  function ListMembers(members: MemberModels.MemberStore): (r: Response)
    requires MemberModels.ValidStore(members)
    ensures r.status == 200 && r.body.JArr?
    ensures |r.body.items| == |members.order|
    ensures forall i :: 0 <= i < |members.order| ==> r.body.items[i] == MemberJson(members.docs[members.order[i]])
    ensures forall k :: k in members.docs ==> MemberJson(members.docs[k]) in r.body.items
  {
    Response(200, JArr(MapAll(members, MemberJson)))
  }

  /**
   * `GET /:memberId`: the stored member with that id, serialized; an unknown
   * id makes `serialize` be called on null, and the catch answers 500.
   */
  function GetMember(members: MemberModels.MemberStore, memberId: string): (r: Response)
    ensures Some(JStr(memberId)) in members.docs ==> r == Response(200, MemberJson(members.docs[Some(JStr(memberId))]))
    ensures Some(JStr(memberId)) !in members.docs ==> r == UnexpectedError
  {
    match FindOne(members, Some(JStr(memberId)))
    case None => UnexpectedError
    case Some(m) => Response(200, MemberJson(m))
  }

  /** The `$in` list of the bills query: the sponsored ids, then the cosponsored ones. */
  function ListedIds(m: MemberModels.Member): (r: seq<Value>)
    ensures |r| == |m.billsSponsored| + |m.billsCosponsored|
    ensures forall v :: v in r <==> v in m.billsSponsored || v in m.billsCosponsored
  {
    m.billsSponsored + m.billsCosponsored
  }

  /** `Bill.find({billId: {$in: ids}})`: the stored bills whose id is listed, in natural order. */
  function BillsOf(bills: BillModels.BillStore, ids: seq<Value>): (r: seq<BillModels.Bill>)
    requires BillModels.ValidStore(bills)
    ensures forall b :: b in r <==> b.billId in bills.docs && bills.docs[b.billId] == b && Some(JStr(b.billId)) in ids
  {
    Where(bills, k => Some(JStr(k)) in ids)
  }

  /** The serialized bills the lookup answers with for member `m`. */
  function FoundBills(bills: BillModels.BillStore, m: MemberModels.Member): (r: seq<Json>)
    requires BillModels.ValidStore(bills)
    ensures forall i :: 0 <= i < |r| ==>
              && r[i].JObj? && "id" in r[i].fields && r[i].fields["id"].JStr?
              && r[i].fields["id"].s in bills.docs && Some(r[i].fields["id"]) in ListedIds(m)
              && r[i] == BillJson(bills.docs[r[i].fields["id"].s])
  {
    Map(BillsOf(bills, ListedIds(m)), BillJson)
  }

  /**
   * `GET /:memberId/bills`: `{bills}` holding the serialization of every
   * stored bill listed by the member; an unknown member makes the
   * destructuring throw, and the catch answers 500.
   */
  function MemberBills(members: MemberModels.MemberStore, bills: BillModels.BillStore, memberId: string): (r: Response)
    requires BillModels.ValidStore(bills)
    ensures Some(JStr(memberId)) !in members.docs <==> r == NoBillsForMember
    ensures Some(JStr(memberId)) in members.docs ==>
              r == Response(200, JObj(map["bills" := JArr(FoundBills(bills, members.docs[Some(JStr(memberId))]))]))
  {
    match FindOne(members, Some(JStr(memberId)))
    case None => NoBillsForMember
    case Some(m) => Response(200, JObj(map["bills" := JArr(FoundBills(bills, m))]))
  }

  /**
   * The lookup is an exact membership filter: a bill is returned if and only
   * if it is stored and its id is in `billsSponsored ++ billsCosponsored`; a
   * listed id with no stored bill contributes nothing.
   */
  lemma FoundBillsExact(bills: BillModels.BillStore, m: MemberModels.Member)
    requires BillModels.ValidStore(bills)
    ensures forall v :: v in FoundBills(bills, m) <==>
              exists k :: k in bills.docs && Some(JStr(k)) in ListedIds(m) && v == BillJson(bills.docs[k])
  {
    var found := BillsOf(bills, ListedIds(m));
    var items := FoundBills(bills, m);
    forall v | v in items
      ensures exists k :: k in bills.docs && Some(JStr(k)) in ListedIds(m) && v == BillJson(bills.docs[k])
    {
      var i :| 0 <= i < |items| && items[i] == v;
      assert found[i] in found;
      var k := found[i].billId;
      assert k in bills.docs && Some(JStr(k)) in ListedIds(m) && v == BillJson(bills.docs[k]);
    }
    forall k | k in bills.docs && Some(JStr(k)) in ListedIds(m) ensures BillJson(bills.docs[k]) in items {
      var b := bills.docs[k];
      assert b in found;
      var i :| 0 <= i < |found| && found[i] == b;
      assert items[i] == BillJson(b);
    }
  }

  /**
   * Because `billId` is unique, each matching bill appears once, even when
   * its id is in both lists or twice in one.
   */
  lemma FoundBillsOnce(bills: BillModels.BillStore, m: MemberModels.Member)
    requires BillModels.ValidStore(bills)
    ensures Distinct(FoundBills(bills, m))
  {
    var p := k => Some(JStr(k)) in ListedIds(m);
    var items := FoundBills(bills, m);
    var ks := WhereKeys(bills.order, p);
    WhereOnce(bills, p);
    forall i, j | 0 <= i < j < |items| ensures items[i] != items[j] {
      assert ks[i] != ks[j];
      if items[i] == items[j] {
        BillModels.SerializeKeepsId(bills.docs[ks[i]], bills.docs[ks[j]]);
      }
    }
  }

  /** A listed id with no stored bill is silently omitted: listing it changes nothing. */
  lemma FoundBillsOmitsUnstored(bills: BillModels.BillStore, m: MemberModels.Member, id: string)
    requires BillModels.ValidStore(bills) && id !in bills.docs
    ensures FoundBills(bills, m.(billsSponsored := m.billsSponsored + [Some(JStr(id))])) == FoundBills(bills, m)
  {
    var m' := m.(billsSponsored := m.billsSponsored + [Some(JStr(id))]);
    var p := k => Some(JStr(k)) in ListedIds(m');
    var q := k => Some(JStr(k)) in ListedIds(m);
    forall k | k in bills.order ensures p(k) == q(k) {
      assert ListedIds(m') == m.billsSponsored + [Some(JStr(id))] + m.billsCosponsored;
      assert k != id;
    }
    WhereKeysAgree(bills.order, p, q);
    assert BillsOf(bills, ListedIds(m')) == BillsOf(bills, ListedIds(m));
  }
}
