/**
 * The member schema: the document a member of Congress is stored as, its
 * required and unique fields, the `serialize` projection, and the member
 * collection as a mutable store.
 */
module MemberModels {
  import opened Js
  import opened Store

  /** The plain object handed to the store for a member, as the member transform builds it. */
  datatype MemberInput = MemberInput(
    firstName: Value, lastName: Value, shortTitle: Value, chamber: Value, title: Value,
    party: Value, state: Value, crpId: Value, memberId: Value, website: Value,
    nextElection: Value, portrait: Value, lastUpdated: int)

  /**
   * A stored member. `firstName` and `lastName` are required strings; the
   * other string fields hold what was assigned to them; the array fields are
   * untyped and start out empty.
   */
  datatype Member = Member(
    firstName: string, lastName: string, shortTitle: Value, chamber: Value, title: Value,
    party: Value, state: Value, crpId: Value, memberId: Value, website: Value,
    nextElection: Value, billsSponsored: seq<Value>, billsCosponsored: seq<Value>,
    portrait: Value, topContributors: seq<Value>, topIndustries: seq<Value>, lastUpdated: int)

  predicate ValidMember(m: Member) {
    m.firstName != "" && m.lastName != ""
  }

  /** The member collection: `memberId` is unique, so it is the key. */
  type MemberStore = Collection<Value, Member>

  ghost predicate ValidStore(c: MemberStore) {
    Valid(c) && forall k :: k in c.docs ==> c.docs[k].memberId == k && ValidMember(c.docs[k])
  }

  /**
   * Creating a member document: refused unless both names are present; the
   * array fields start out empty.
   */
  function NewMember(f: MemberInput): (r: Result<Member>)
    ensures r.Ok? <==> Required(f.firstName) && Required(f.lastName)
    ensures r.Err? ==> r.error == ValidationError
    ensures r.Ok? ==> ValidMember(r.value) && r.value.memberId == f.memberId
    ensures r.Ok? ==> Some(JStr(r.value.firstName)) == f.firstName && Some(JStr(r.value.lastName)) == f.lastName
    ensures r.Ok? ==> r.value.billsSponsored == [] && r.value.billsCosponsored == []
                      && r.value.topContributors == [] && r.value.topIndustries == []
    ensures r.Ok? ==> r.value.lastUpdated == f.lastUpdated && r.value.portrait == f.portrait
    ensures r.Ok? ==> r.value.shortTitle == f.shortTitle && r.value.chamber == f.chamber
                      && r.value.title == f.title && r.value.party == f.party && r.value.state == f.state
                      && r.value.crpId == f.crpId && r.value.website == f.website
                      && r.value.nextElection == f.nextElection
  {
    if Required(f.firstName) && Required(f.lastName) then
      Ok(Member(RequiredText(f.firstName), RequiredText(f.lastName), f.shortTitle, f.chamber, f.title,
                f.party, f.state, f.crpId, f.memberId, f.website, f.nextElection, [], [],
                f.portrait, [], [], f.lastUpdated))
    else Err(ValidationError)
  }

  /** The keys a serialized member can have. */
  const MemberViewKeys: set<string> := {"firstName", "lastName", "shortTitle", "chamber", "nextElection",
    "title", "party", "state", "crpId", "memberId", "website", "billsSponsored", "billsCosponsored",
    "portrait", "topContributors"}

  /** The value `serialize` puts under `key`; undefined for a key it does not write. */
  function ViewProp(m: Member, key: string): Value {
    match key
    case "firstName" => Some(JStr(m.firstName))
    case "lastName" => Some(JStr(m.lastName))
    case "shortTitle" => m.shortTitle
    case "chamber" => m.chamber
    case "nextElection" => m.nextElection
    case "title" => m.title
    case "party" => m.party
    case "state" => m.state
    case "crpId" => m.crpId
    case "memberId" => m.memberId
    case "website" => m.website
    case "billsSponsored" => Some(JArr(ArrayJson(m.billsSponsored)))
    case "billsCosponsored" => Some(JArr(ArrayJson(m.billsCosponsored)))
    case "portrait" => m.portrait
    case "topContributors" => Some(JArr(ArrayJson(m.topContributors)))
    case _ => None
  }

  /**
   * `serialize`, as the JSON object it becomes: fifteen fields go out
   * unchanged, `topIndustries` and `lastUpdated` stay in the store, and a
   * property that is undefined is left out.
   */
  function Serialize(m: Member): (r: map<string, Json>)
    ensures r.Keys <= MemberViewKeys
    ensures forall k :: k in MemberViewKeys ==> Copies(r, k, ViewProp(m, k))
  {
    map k | k in MemberViewKeys && ViewProp(m, k).Some? :: ViewProp(m, k).value
  }

  /**
   * The serialized member, key by key: fifteen fields go out unchanged, and
   * `topIndustries` and `lastUpdated` stay in the store.
   */
  lemma SerializeFields(m: Member)
    ensures var r := Serialize(m);
      && "topIndustries" !in r && "lastUpdated" !in r
      && "firstName" in r && r["firstName"] == JStr(m.firstName)
      && "lastName" in r && r["lastName"] == JStr(m.lastName)
      && "billsSponsored" in r && r["billsSponsored"] == JArr(ArrayJson(m.billsSponsored))
      && "billsCosponsored" in r && r["billsCosponsored"] == JArr(ArrayJson(m.billsCosponsored))
      && "topContributors" in r && r["topContributors"] == JArr(ArrayJson(m.topContributors))
      && Copies(r, "shortTitle", m.shortTitle) && Copies(r, "chamber", m.chamber)
      && Copies(r, "nextElection", m.nextElection) && Copies(r, "title", m.title)
      && Copies(r, "party", m.party) && Copies(r, "state", m.state) && Copies(r, "crpId", m.crpId)
      && Copies(r, "memberId", m.memberId) && Copies(r, "website", m.website)
      && Copies(r, "portrait", m.portrait)
  {
    var r := Serialize(m);
    assert "topIndustries" !in MemberViewKeys && "lastUpdated" !in MemberViewKeys;
    assert Copies(r, "firstName", ViewProp(m, "firstName"));
    assert Copies(r, "lastName", ViewProp(m, "lastName"));
    assert Copies(r, "billsSponsored", ViewProp(m, "billsSponsored"));
    assert Copies(r, "billsCosponsored", ViewProp(m, "billsCosponsored"));
    assert Copies(r, "topContributors", ViewProp(m, "topContributors"));
    assert Copies(r, "shortTitle", ViewProp(m, "shortTitle"));
    assert Copies(r, "chamber", ViewProp(m, "chamber"));
    assert Copies(r, "nextElection", ViewProp(m, "nextElection"));
    assert Copies(r, "title", ViewProp(m, "title"));
    assert Copies(r, "party", ViewProp(m, "party"));
    assert Copies(r, "state", ViewProp(m, "state"));
    assert Copies(r, "crpId", ViewProp(m, "crpId"));
    assert Copies(r, "memberId", ViewProp(m, "memberId"));
    assert Copies(r, "website", ViewProp(m, "website"));
    assert Copies(r, "portrait", ViewProp(m, "portrait"));
  }

  /** The projection depends on neither `topIndustries` nor `lastUpdated`. */
  lemma SerializeIgnoresHiddenFields(m: Member, industries: seq<Value>, t: int)
    ensures Serialize(m.(topIndustries := industries, lastUpdated := t)) == Serialize(m)
  {
    var m' := m.(topIndustries := industries, lastUpdated := t);
    forall k ensures ViewProp(m', k) == ViewProp(m, k) {
    }
  }

  /** The keys the API's tests require of every serialized member. */
  const TestedKeys: set<string> := {"firstName", "lastName", "title", "party", "memberId", "state",
    "portrait", "billsSponsored", "billsCosponsored", "chamber", "crpId", "shortTitle", "topContributors"}

  /**
   * A member stored with the fields the tests seed (names, short title,
   * chamber, party, crpId, memberId, portrait, state and title) serializes
   * with every key the tests require.
   */
  lemma SerializeHasTestedKeys(m: Member)
    requires m.shortTitle.Some? && m.chamber.Some? && m.title.Some? && m.party.Some?
    requires m.state.Some? && m.crpId.Some? && m.memberId.Some? && m.portrait.Some?
    ensures TestedKeys <= Serialize(m).Keys
  {
    var r := Serialize(m);
    forall k | k in TestedKeys ensures k in r {
    }
  }

  /** The member collection, which `addMember` changes in place. */
  class MemberModel {
    var docs: map<Value, Member>
    var order: seq<Value>

    function Contents(): MemberStore
      reads this
    {
      Collection(docs, order)
    }

    ghost predicate Valid()
      reads this
    {
      ValidStore(Contents())
    }

    constructor (initial: MemberStore)
      requires ValidStore(initial)
      ensures Valid() && Contents() == initial
    {
      docs := initial.docs;
      order := initial.order;
    }

    /** `Member.findOne({memberId: id})` */
    function Find(id: Value): (r: Option<Member>)
      reads this
      ensures r.Some? <==> id in docs
      ensures r.Some? ==> r.value == docs[id]
    {
      FindOne(Contents(), id)
    }

    /** `Member.create(doc)` for an id not yet stored: schema validation first. */
    method Create(doc: MemberInput) returns (r: Result<Member>)
      requires Valid() && doc.memberId !in docs
      modifies this
      ensures Valid()
      ensures r == NewMember(doc)
      ensures r.Ok? ==> Contents() == Insert(old(Contents()), doc.memberId, r.value)
      ensures r.Err? ==> Contents() == old(Contents())
    {
      r := NewMember(doc);
      if r.Ok? {
        docs := docs[doc.memberId := r.value];
        order := order + [doc.memberId];
        assert Contents() == Insert(old(Contents()), doc.memberId, r.value);
      }
    }

    /** `member.save()` for a member already stored. */
    method Save(m: Member)
      requires Valid() && m.memberId in docs && ValidMember(m)
      modifies this
      ensures Valid()
      ensures Contents() == Store.Save(old(Contents()), m.memberId, m)
    {
      docs := docs[m.memberId := m];
      assert Contents() == Store.Save(old(Contents()), m.memberId, m);
    }
  }
}
