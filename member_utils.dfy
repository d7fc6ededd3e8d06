/**
 * Member upsert and bill-list merge: the order-preserving de-duplication,
 * the member transform, the envelope checks of the three upstream fetchers,
 * and `addMember`, which creates or updates a member and merges the ids of
 * the bills the member introduced and cosponsored into the stored lists.
 */
module MemberUtils {
  import opened Js
  import opened Store
  import BillModels
  import opened BillUtils
  import opened MemberModels

  // ---------------------------------------------------------------------------
  // removeDuplicates

  /** `s.indexOf(x)`: the first position of `x`, or -1. */
  function IndexOf<T(==)>(s: seq<T>, x: T): (r: int)
    ensures -1 <= r < |s|
    ensures r == -1 <==> x !in s
    ensures 0 <= r ==> s[r] == x && x !in s[..r]
  {
    if |s| == 0 then -1
    else if s[0] == x then 0
    else
      var i := IndexOf(s[1..], x);
      assert s[1..][..if i < 0 then 0 else i] == s[1..if i < 0 then 1 else i + 1];
      if i == -1 then -1 else i + 1
  }

  /** An element is kept when its position is the position of its first occurrence. */
  lemma KeptIffFirst<T>(s: seq<T>, i: nat)
    requires i < |s|
    ensures IndexOf(s, s[i]) == i <==> s[i] !in s[..i]
  {
  }

  /** The filter of `removeDuplicates` run over the first `n` positions of `s`. */
  function KeepFirsts<T(==)>(s: seq<T>, n: nat): seq<T>
    requires n <= |s|
  {
    if n == 0 then []
    else KeepFirsts(s, n - 1) + (if IndexOf(s, s[n - 1]) == n - 1 then [s[n - 1]] else [])
  }

  /**
   * `arr.filter((elem, index, self) => index === self.indexOf(elem))`: a list
   * without repeated elements that holds exactly the elements of `arr`.
   */
  function RemoveDuplicates<T(==,!new)>(arr: seq<T>): (r: seq<T>)
    ensures Distinct(r)
    ensures forall x :: x in r <==> x in arr
  {
    KeepFirstsFacts(arr, |arr|);
    assert arr[..|arr|] == arr;
    KeepFirsts(arr, |arr|)
  }

  /** The filter over the first `n` positions keeps exactly their elements, each by its first position. */
  lemma {:induction false} KeepFirstsElements<T>(s: seq<T>, n: nat)
    requires n <= |s|
    ensures forall x :: x in KeepFirsts(s, n) <==> x in s[..n]
    ensures forall x :: x in KeepFirsts(s, n) ==> 0 <= IndexOf(s, x) < n
  {
    if n > 0 {
      var prev := KeepFirsts(s, n - 1);
      var x := s[n - 1];
      KeepFirstsElements(s, n - 1);
      KeptIffFirst(s, n - 1);
      assert s[..n] == s[..n - 1] + [x];
      if IndexOf(s, x) == n - 1 {
        assert KeepFirsts(s, n) == prev + [x];
      } else {
        assert KeepFirsts(s, n) == prev;
        assert x in s[..n - 1];
      }
    }
  }

  /** The kept elements appear in the order of their first positions. */
  lemma {:induction false} KeepFirstsOrder<T>(s: seq<T>, n: nat)
    requires n <= |s|
    ensures forall i, j :: 0 <= i < j < |KeepFirsts(s, n)| ==>
              IndexOf(s, KeepFirsts(s, n)[i]) < IndexOf(s, KeepFirsts(s, n)[j])
  {
    if n > 0 {
      var prev := KeepFirsts(s, n - 1);
      var x := s[n - 1];
      KeepFirstsOrder(s, n - 1);
      if IndexOf(s, x) == n - 1 {
        var r := KeepFirsts(s, n);
        assert r == prev + [x];
        KeepFirstsElements(s, n - 1);
        forall i, j | 0 <= i < j < |r| ensures IndexOf(s, r[i]) < IndexOf(s, r[j]) {
          assert r[i] == prev[i];
          if j == |prev| {
            assert prev[i] in prev;
          } else {
            assert r[j] == prev[j];
          }
        }
      } else {
        assert KeepFirsts(s, n) == prev;
      }
    }
  }

  lemma KeepFirstsFacts<T>(s: seq<T>, n: nat)
    requires n <= |s|
    ensures forall x :: x in KeepFirsts(s, n) <==> x in s[..n]
    ensures forall x :: x in KeepFirsts(s, n) ==> 0 <= IndexOf(s, x) < n
    ensures Distinct(KeepFirsts(s, n))
    ensures forall i, j :: 0 <= i < j < |KeepFirsts(s, n)| ==>
              IndexOf(s, KeepFirsts(s, n)[i]) < IndexOf(s, KeepFirsts(s, n)[j])
  {
    KeepFirstsElements(s, n);
    KeepFirstsOrder(s, n);
  }

  /** The output lists the elements in the order of their first occurrence in the input. */
  lemma RemoveDuplicatesFirstOccurrenceOrder<T(!new)>(s: seq<T>)
    ensures var r := RemoveDuplicates(s);
      forall i, j :: 0 <= i < j < |r| ==> 0 <= IndexOf(s, r[i]) < IndexOf(s, r[j])
  {
    KeepFirstsFacts(s, |s|);
  }

  /** `r` is `s` with some elements left out: positions `idx` pick `r` out of `s` in increasing order. */
  predicate Embeds<T(==)>(idx: seq<int>, r: seq<T>, s: seq<T>) {
    && |idx| == |r|
    && (forall k :: 0 <= k < |idx| ==> 0 <= idx[k] < |s| && s[idx[k]] == r[k])
    && (forall i, j :: 0 <= i < j < |idx| ==> idx[i] < idx[j])
  }

  ghost predicate IsSubsequence<T>(r: seq<T>, s: seq<T>) {
    exists idx :: Embeds(idx, r, s)
  }

  /** The output is a subsequence of the input: each element sits at its first occurrence. */
  lemma RemoveDuplicatesSubsequence<T(!new)>(s: seq<T>)
    ensures IsSubsequence(RemoveDuplicates(s), s)
  {
    var r := RemoveDuplicates(s);
    KeepFirstsFacts(s, |s|);
    assert forall k :: 0 <= k < |r| ==> r[k] in r;
    var idx := seq(|r|, k requires 0 <= k < |r| => IndexOf(s, r[k]));
    assert Embeds(idx, r, s);
  }

  lemma {:induction false} KeepFirstsOfDistinct<T>(s: seq<T>, n: nat)
    requires Distinct(s) && n <= |s|
    ensures KeepFirsts(s, n) == s[..n]
  {
    if n > 0 {
      KeepFirstsOfDistinct(s, n - 1);
      KeptIffFirst(s, n - 1);
      assert s[n - 1] !in s[..n - 1];
      assert KeepFirsts(s, n) == s[..n - 1] + [s[n - 1]];
      assert s[..n] == s[..n - 1] + [s[n - 1]];
    }
  }

  /** On a list without duplicates `removeDuplicates` is the identity. */
  lemma RemoveDuplicatesOfDistinct<T(!new)>(s: seq<T>)
    requires Distinct(s)
    ensures RemoveDuplicates(s) == s
  {
    KeepFirstsOfDistinct(s, |s|);
    assert s[..|s|] == s;
  }

  /** `removeDuplicates` is idempotent. */
  lemma RemoveDuplicatesIdempotent<T(!new)>(s: seq<T>)
    ensures RemoveDuplicates(RemoveDuplicates(s)) == RemoveDuplicates(s)
  {
    RemoveDuplicatesOfDistinct(RemoveDuplicates(s));
  }

  /** The filter over the first `n` positions only looks at those positions. */
  lemma {:induction false} KeepFirstsAgree<T>(s: seq<T>, t: seq<T>, n: nat)
    requires n <= |s| && n <= |t| && s[..n] == t[..n]
    ensures KeepFirsts(s, n) == KeepFirsts(t, n)
  {
    if n > 0 {
      assert s[..n - 1] == s[..n][..n - 1] == t[..n][..n - 1] == t[..n - 1];
      assert s[n - 1] == s[..n][n - 1] == t[..n][n - 1] == t[n - 1];
      KeepFirstsAgree(s, t, n - 1);
      KeptIffFirst(s, n - 1);
      KeptIffFirst(t, n - 1);
    }
  }

  lemma KeepFirstsOfPrefix<T>(a: seq<T>, b: seq<T>, n: nat)
    requires n <= |a|
    ensures KeepFirsts(a + b, n) == KeepFirsts(a, n)
  {
    assert (a + b)[..n] == a[..n];
    KeepFirstsAgree(a + b, a, n);
  }

  /**
   * Merging is append-only: de-duplicating `prev + added` starts with the
   * de-duplicated `prev`, and every old or added element is kept.
   */
  lemma MergeKeepsOld<T(!new)>(prev: seq<T>, added: seq<T>)
    ensures RemoveDuplicates(prev) <= RemoveDuplicates(prev + added)
    ensures forall x :: x in RemoveDuplicates(prev + added) <==> x in prev || x in added
  {
    KeepFirstsOfPrefix(prev, added, |prev|);
    KeepFirstsExtends(prev + added, |prev|, |prev + added|);
  }

  lemma {:induction false} KeepFirstsExtends<T>(s: seq<T>, m: nat, n: nat)
    requires m <= n <= |s|
    ensures KeepFirsts(s, m) <= KeepFirsts(s, n)
  {
    if m < n {
      KeepFirstsExtends(s, m, n - 1);
    }
  }

  /** The merge law: merging [A, B] with the newly fetched [B, C] gives [A, B, C]. */
  lemma MergeExample()
    ensures RemoveDuplicates(["A", "B"] + ["B", "C"]) == ["A", "B", "C"]
  {
    var s := ["A", "B"] + ["B", "C"];
    assert s == ["A", "B", "B", "C"];
    assert IndexOf(s, "A") == 0;
    assert IndexOf(s, "B") == 1;
    assert IndexOf(s, "C") == 3;
    assert KeepFirsts(s, 1) == ["A"];
    assert KeepFirsts(s, 2) == ["A", "B"];
    assert KeepFirsts(s, 3) == ["A", "B"];
  }

  // ---------------------------------------------------------------------------
  // proPublicaMemberToMongo

  const PortraitPrefix := "https://theunitedstates.io/images/congress/225x275/"

  /**
   * `proPublicaMemberToMongo(member)`, where `now` is what `Date.now()`
   * returns. Reading a property of an undefined or null member, or of its
   * undefined or null `roles`, throws.
   */
  function ProPublicaMemberToMongo(member: Value, now: int): (r: Result<MemberInput>)
    ensures r.Ok? <==> Defined(member) && Defined(Field(member, "roles"))
    ensures r.Err? ==> r.error == TypeError
    ensures r.Ok? ==> r.value.firstName == Field(member, "first_name")
                      && r.value.lastName == Field(member, "last_name")
                      && r.value.crpId == Field(member, "crp_id")
                      && r.value.memberId == Field(member, "member_id")
                      && r.value.website == Field(member, "url")
                      && r.value.nextElection == Field(member, "nextElection")
    ensures r.Ok? ==> r.value.portrait == Some(JStr(PortraitPrefix + JsText(Field(member, "member_id")) + ".jpg"))
    ensures r.Ok? ==> r.value.lastUpdated == now
  {
    if !Defined(member) then Err(TypeError)
    else
      var roles := Field(member, "roles");
      if !Defined(roles) then Err(TypeError)
      else
        Ok(MemberInput(
          firstName := Field(member, "first_name"),
          lastName := Field(member, "last_name"),
          shortTitle := Or(Field(roles, "short_title"), Field(member, "short_title")),
          chamber := Or(Field(roles, "chamber"), Field(member, "chamber")),
          title := Or(Field(roles, "title"), Field(member, "title")),
          party := Or(Field(roles, "part"), Field(member, "party")),
          state := Or(Field(roles, "state"), Field(member, "state")),
          crpId := Field(member, "crp_id"),
          memberId := Field(member, "member_id"),
          website := Field(member, "url"),
          nextElection := Field(member, "nextElection"),
          portrait := Some(JStr(PortraitPrefix + JsText(Field(member, "member_id")) + ".jpg")),
          lastUpdated := now))
  }

  /** The value the `roles` entry or, when that is falsy, the top-level entry gives. */
  predicate FallsBack(v: Value, member: Value, roleKey: string, key: string) {
    var fromRoles := Field(Field(member, "roles"), roleKey);
    if Truthy(fromRoles) then v == fromRoles else v == Field(member, key)
  }

  /**
   * `shortTitle`, `chamber`, `title` and `state` prefer a truthy `roles`
   * entry of the same name; `party` prefers a truthy `roles.part`.
   */
  lemma MemberTransformFallsBack(member: Value, now: int)
    requires Defined(member) && Defined(Field(member, "roles"))
    ensures var f := ProPublicaMemberToMongo(member, now).value;
      && FallsBack(f.shortTitle, member, "short_title", "short_title")
      && FallsBack(f.chamber, member, "chamber", "chamber")
      && FallsBack(f.title, member, "title", "title")
      && FallsBack(f.state, member, "state", "state")
      && FallsBack(f.party, member, "part", "party")
  {
  }

  /**
   * `roles.party` is never read: a member whose `roles` carries a party under
   * that key, and no `part`, gets the top-level `party`.
   */
  lemma PartyIgnoresRolesParty(fields: map<string, Json>, roles: map<string, Json>, p: Json, now: int)
    requires "part" !in roles
    ensures var member := Some(JObj(fields["roles" := JObj(roles["party" := p])]));
      ProPublicaMemberToMongo(member, now).value.party == Field(Some(JObj(fields)), "party")
  {
    var member := Some(JObj(fields["roles" := JObj(roles["party" := p])]));
    assert "part" != "party";
    assert Field(member, "party") == Field(Some(JObj(fields)), "party") by {
      assert "party" != "roles";
    }
  }

  /** A string `member_id` is spliced between the image prefix and `.jpg`. */
  lemma PortraitFromMemberId(fields: map<string, Json>, id: string, now: int)
    requires "roles" in fields && fields["roles"] != JNull
    requires "member_id" in fields && fields["member_id"] == JStr(id)
    ensures var r := ProPublicaMemberToMongo(Some(JObj(fields)), now);
      && r.Ok? && r.value.memberId == Some(JStr(id))
      && r.value.portrait == Some(JStr(PortraitPrefix + id + ".jpg"))
  {
  }

  /** Transforming the same member at two instants gives records that differ at most in `lastUpdated`. */
  lemma MemberTransformDependsOnClockOnlyInLastUpdated(member: Value, t1: int, t2: int)
    requires Defined(member) && Defined(Field(member, "roles"))
    ensures ProPublicaMemberToMongo(member, t1).value.(lastUpdated := t2) == ProPublicaMemberToMongo(member, t2).value
  {
  }

  // ---------------------------------------------------------------------------
  // The results envelope of the three fetchers

  const MemberNotFound := Rejected(404, "Error retrieving data from propublica")

  /** `fetchSpecificMember`, from the parsed response on: `results[0]` unless `results` is falsy. */
  function SpecificMember(res: Json): (r: Result<Value>)
    ensures r.Ok? <==> res != JNull && Truthy(Field(Some(res), "results"))
    ensures res == JNull ==> r == Err(TypeError)
    ensures res != JNull && !Truthy(Field(Some(res), "results")) ==> r == Err(MemberNotFound)
    ensures r.Ok? ==> First(Field(Some(res), "results")) == r
  {
    var results :- Prop(Some(res), "results");
    if !Truthy(results) then Err(MemberNotFound) else First(results)
  }

  /** Which of a member's bill lists a fetch asks for. */
  datatype BillList = Introduced | Cosponsored

  function ListVerb(kind: BillList): string {
    match kind
    case Introduced => "sponsored"
    case Cosponsored => "cosponsored"
  }

  /** The rejection of a bill-list fetch whose response has no `results`. */
  function BillsNotFound(memberId: Value, kind: BillList): Error {
    Rejected(404, "Error retrieving bills " + ListVerb(kind) + " by " + JsText(memberId) + " from Propublica")
  }

  /**
   * `getRecentBillsByMember` / `getRecentBillsCosponsoredByMember`, from the
   * parsed response on: `results[0].bills` unless `results` is falsy.
   */
  function MemberBills(res: Json, memberId: Value, kind: BillList): (r: Result<Value>)
    ensures res == JNull ==> r == Err(TypeError)
    ensures res != JNull && !Truthy(Field(Some(res), "results")) ==> r == Err(BillsNotFound(memberId, kind))
    ensures res != JNull && Truthy(Field(Some(res), "results")) ==>
              var first := First(Field(Some(res), "results")).value;
              r == (if Defined(first) then Ok(Field(first, "bills")) else Err(TypeError))
  {
    var results :- Prop(Some(res), "results");
    if !Truthy(results) then Err(BillsNotFound(memberId, kind))
    else
      Prop(First(results).value, "bills")
  }

  // ---------------------------------------------------------------------------
  // addMember

  /** The fields an existing member takes from the fresh transform. */
  datatype Updatable = ShortTitle | Chamber | Title | Party | LastUpdated

  const UpdateableFields: seq<Updatable> := [ShortTitle, Chamber, Title, Party, LastUpdated]

  /** `member[field] = memberToAdd[field]` */
  function Assign(m: Member, field: Updatable, src: MemberInput): Member {
    match field
    case ShortTitle => m.(shortTitle := src.shortTitle)
    case Chamber => m.(chamber := src.chamber)
    case Title => m.(title := src.title)
    case Party => m.(party := src.party)
    case LastUpdated => m.(lastUpdated := src.lastUpdated)
  }

  /** The assignments for `fields`, in order. */
  function AssignAll(m: Member, fields: seq<Updatable>, src: MemberInput): Member {
    if fields == [] then m
    else Assign(AssignAll(m, fields[..|fields| - 1], src), fields[|fields| - 1], src)
  }

  /**
   * `updateableFields.forEach(...)`: the five allow-listed fields come from
   * the transform and every other field keeps its stored value.
   */
  function UpdateFrom(m: Member, src: MemberInput): (r: Member)
    ensures r == m.(shortTitle := src.shortTitle, chamber := src.chamber, title := src.title,
                    party := src.party, lastUpdated := src.lastUpdated)
  {
    var fs := UpdateableFields;
    assert AssignAll(m, [ShortTitle], src) == Assign(m, ShortTitle, src) by {
      assert [ShortTitle][..0] == [];
    }
    assert AssignAll(m, fs[..2], src) == Assign(AssignAll(m, [ShortTitle], src), Chamber, src) by {
      assert fs[..2][..1] == [ShortTitle];
    }
    assert AssignAll(m, fs[..3], src) == Assign(AssignAll(m, fs[..2], src), Title, src) by {
      assert fs[..3][..2] == fs[..2];
    }
    assert AssignAll(m, fs[..4], src) == Assign(AssignAll(m, fs[..3], src), Party, src) by {
      assert fs[..4][..3] == fs[..3];
    }
    assert AssignAll(m, fs, src) == Assign(AssignAll(m, fs[..4], src), LastUpdated, src) by {
      assert fs[..|fs| - 1] == fs[..4];
    }
    AssignAll(m, fs, src)
  }

  /** The ids the transformed bills carry, in order. */
  function BillIds(bills: seq<BillModels.BillInput>): (r: seq<Value>)
    ensures |r| == |bills|
    ensures forall i :: 0 <= i < |bills| ==> r[i] == bills[i].billId
  {
    if bills == [] then [] else BillIds(bills[..|bills| - 1]) + [bills[|bills| - 1].billId]
  }

  /**
   * The transformed bills of one fetched list: the response's `bills` must be
   * an array and each entry must be non-null.
   */
  function FetchedBills(res: Json, memberId: Value, kind: BillList, now: int): (r: Result<seq<BillModels.BillInput>>)
    ensures MemberBills(res, memberId, kind).Err? ==> r == Err(MemberBills(res, memberId, kind).error)
    ensures MemberBills(res, memberId, kind).Ok? ==>
              var bills := MemberBills(res, memberId, kind).value;
              && (r.Ok? <==> bills.Some? && bills.value.JArr?
                             && forall i :: 0 <= i < |bills.value.items| ==> bills.value.items[i] != JNull)
              && (r.Err? ==> r.error == TypeError)
              && (r.Ok? ==> |r.value| == |bills.value.items|
                            && forall i :: 0 <= i < |r.value| ==>
                                 Ok(r.value[i]) == ProPublicaBillToMongo(bills.value.items[i], now))
  {
    var bills :- MemberBills(res, memberId, kind);
    var items :- Items(bills);
    ProPublicaBillsToMongo(items, now)
  }

  /** The ids one fetched list contributes, once `addMultipleBills` has settled with `added`. */
  function FetchedIds(res: Json, memberId: Value, kind: BillList, now: int, added: Outcome): (r: Result<seq<Value>>)
    ensures FetchedBills(res, memberId, kind, now).Err? ==> r == Err(FetchedBills(res, memberId, kind, now).error)
    ensures FetchedBills(res, memberId, kind, now).Ok? && added.Fail? ==> r == Err(added.error)
    ensures r.Ok? <==> FetchedBills(res, memberId, kind, now).Ok? && added.Pass?
    ensures r.Ok? ==>
              var bills := FetchedBills(res, memberId, kind, now).value;
              |r.value| == |bills| && forall i :: 0 <= i < |bills| ==> r.value[i] == bills[i].billId
  {
    var bills :- FetchedBills(res, memberId, kind, now);
    if added.Fail? then Err(added.error) else Ok(BillIds(bills))
  }

  /** The ids collected from a list are the upstream `bill_id`s, in upstream order. */
  lemma FetchedIdsAreUpstreamIds(res: Json, memberId: Value, kind: BillList, now: int)
    requires FetchedIds(res, memberId, kind, now, Pass).Ok?
    ensures var bills := MemberBills(res, memberId, kind).value.value.items;
      var ids := FetchedIds(res, memberId, kind, now, Pass).value;
      && |ids| == |bills|
      && forall i :: 0 <= i < |bills| ==> ids[i] == Field(Some(bills[i]), "bill_id")
  {
    var bills := MemberBills(res, memberId, kind).value.value.items;
    var toAdd := ProPublicaBillsToMongo(bills, now).value;
    forall i | 0 <= i < |bills| ensures toAdd[i].billId == Field(Some(bills[i]), "bill_id") {
      assert Ok(toAdd[i]) == ProPublicaBillToMongo(bills[i], now);
    }
  }

  /** The store and what the `addMember` promise settles with. */
  datatype AddResult = AddResult(store: MemberStore, result: Result<Member>)

  /**
   * `after` is `before` with at most the record under `id` added or changed:
   * nothing is deleted, the natural order only grows at its end, and every
   * other record is as it was.
   */
  ghost predicate KeepsOthers(before: MemberStore, after: MemberStore, id: Value) {
    && before.docs.Keys <= after.docs.Keys <= before.docs.Keys + {id}
    && before.order <= after.order
    && forall k :: k in before.docs && k != id ==> after.docs[k] == before.docs[k]
  }

  lemma KeepsOthersTrans(a: MemberStore, b: MemberStore, c: MemberStore, id: Value)
    requires KeepsOthers(a, b, id) && KeepsOthers(b, c, id)
    ensures KeepsOthers(a, c, id)
  {
  }

  /**
   * The first step of `addMember`: create the member, or overwrite its
   * allow-listed fields. No other record is touched, and the bill lists are
   * the ones stored before (none for a new member).
   */
  function UpsertBase(store: MemberStore, toAdd: MemberInput): (r: AddResult)
    requires ValidStore(store)
    ensures ValidStore(r.store) && KeepsOthers(store, r.store, toAdd.memberId)
    ensures r.result.Ok? ==> r.result.value.memberId == toAdd.memberId
                             && toAdd.memberId in r.store.docs && r.store.docs[toAdd.memberId] == r.result.value
    ensures r.result.Err? ==> r.store == store
    ensures toAdd.memberId !in store.docs ==> r.result == NewMember(toAdd)
    ensures toAdd.memberId in store.docs ==> r.result == Ok(UpdateFrom(store.docs[toAdd.memberId], toAdd))
    ensures r.result.Ok? ==>
              var stored := toAdd.memberId in store.docs;
              && r.result.value.billsSponsored == (if stored then store.docs[toAdd.memberId].billsSponsored else [])
              && r.result.value.billsCosponsored == (if stored then store.docs[toAdd.memberId].billsCosponsored else [])
  {
    match FindOne(store, toAdd.memberId)
    case None =>
      (match NewMember(toAdd)
       case Err(e) => AddResult(store, Err(e))
       case Ok(m) => AddResult(Insert(store, toAdd.memberId, m), Ok(m)))
    case Some(m) =>
      var m' := UpdateFrom(m, toAdd);
      AddResult(Save(store, toAdd.memberId, m'), Ok(m'))
  }

  /** The last step of `addMember`: each list becomes the de-duplicated concatenation of old and new ids. */
  function MergeBillLists(m: Member, sponsored: seq<Value>, cosponsored: seq<Value>): (r: Member)
    ensures r.(billsSponsored := m.billsSponsored, billsCosponsored := m.billsCosponsored) == m
    ensures Distinct(r.billsSponsored) && Distinct(r.billsCosponsored)
    ensures RemoveDuplicates(m.billsSponsored) <= r.billsSponsored
    ensures RemoveDuplicates(m.billsCosponsored) <= r.billsCosponsored
    ensures forall x :: x in r.billsSponsored <==> x in m.billsSponsored || x in sponsored
    ensures forall x :: x in r.billsCosponsored <==> x in m.billsCosponsored || x in cosponsored
  {
    MergeKeepsOld(m.billsSponsored, sponsored);
    MergeKeepsOld(m.billsCosponsored, cosponsored);
    m.(billsSponsored := RemoveDuplicates(m.billsSponsored + sponsored),
       billsCosponsored := RemoveDuplicates(m.billsCosponsored + cosponsored))
  }

  /**
   * The steps of `addMember` after the upsert, given what the two fetches
   * (each with its `addMultipleBills`) yield: the first failure rejects,
   * otherwise the stored record gets the merged lists. Nothing else changes.
   */
  function MergeFetched(store: MemberStore, memberId: Value,
                        sponsored: Result<seq<Value>>, cosponsored: Result<seq<Value>>): (r: AddResult)
    requires ValidStore(store) && memberId in store.docs
    ensures ValidStore(r.store) && KeepsOthers(store, r.store, memberId)
    ensures r.store.docs.Keys == store.docs.Keys && r.store.order == store.order
    ensures r.result.Err? <==> sponsored.Err? || cosponsored.Err?
    ensures sponsored.Err? ==> r == AddResult(store, Err(sponsored.error))
    ensures sponsored.Ok? && cosponsored.Err? ==> r == AddResult(store, Err(cosponsored.error))
    ensures r.result.Ok? ==>
              && r.result.value == r.store.docs[memberId]
              && r.result.value == MergeBillLists(store.docs[memberId], sponsored.value, cosponsored.value)
  {
    match sponsored
    case Err(e) => AddResult(store, Err(e))
    case Ok(sponsoredIds) =>
      match cosponsored
      case Err(e) => AddResult(store, Err(e))
      case Ok(cosponsoredIds) =>
        var m := MergeBillLists(store.docs[memberId], sponsoredIds, cosponsoredIds);
        AddResult(Save(store, memberId, m), Ok(m))
  }

  /**
   * `addMember(proPublicaMemberResult)`, where `introduced` and `cosponsored`
   * are the parsed responses of the two bill-list fetches, and `addIntroduced`
   * and `addCosponsored` are how the two `addMultipleBills` calls settle.
   * Only the record under the upstream `member_id` can be touched.
   */
  function AddMemberSpec(store: MemberStore, pm: Value, now: int,
                         introduced: Json, addIntroduced: Outcome,
                         cosponsored: Json, addCosponsored: Outcome): (r: AddResult)
    requires ValidStore(store)
    ensures ValidStore(r.store)
    ensures KeepsOthers(store, r.store, Field(pm, "member_id"))
    ensures ProPublicaMemberToMongo(pm, now).Err? ==> r == AddResult(store, Err(TypeError))
  {
    match ProPublicaMemberToMongo(pm, now)
    case Err(e) => AddResult(store, Err(e))
    case Ok(toAdd) => AddTransformed(store, toAdd, now, introduced, addIntroduced, cosponsored, addCosponsored)
  }

  /**
   * `addMember` from `memberToAdd` on: the upsert, then the two fetches and
   * the merge. A step that fails leaves the writes of the steps before it in
   * place.
   */
  function AddTransformed(store: MemberStore, toAdd: MemberInput, now: int,
                          introduced: Json, addIntroduced: Outcome,
                          cosponsored: Json, addCosponsored: Outcome): (r: AddResult)
    requires ValidStore(store)
    ensures ValidStore(r.store) && KeepsOthers(store, r.store, toAdd.memberId)
  {
    var base := UpsertBase(store, toAdd);
    if base.result.Err? then base
    else
      var memberId := base.result.value.memberId;
      var r := MergeFetched(base.store, memberId,
                            FetchedIds(introduced, memberId, Introduced, now, addIntroduced),
                            FetchedIds(cosponsored, memberId, Cosponsored, now, addCosponsored));
      KeepsOthersTrans(store, base.store, r.store, memberId);
      r
  }

  /**
   * A member whose id is not stored is created from exactly the transformed
   * record, at the end of the natural order; only its bill lists are filled
   * in afterwards. A record the schema refuses is not stored at all.
   */
  lemma AddMemberCreatesTransformedRecord(store: MemberStore, toAdd: MemberInput, now: int,
                                          introduced: Json, addIntroduced: Outcome,
                                          cosponsored: Json, addCosponsored: Outcome)
    requires ValidStore(store) && toAdd.memberId !in store.docs
    ensures var r := AddTransformed(store, toAdd, now, introduced, addIntroduced, cosponsored, addCosponsored);
      match NewMember(toAdd)
      case Err(e) => r == AddResult(store, Err(ValidationError))
      case Ok(created) =>
        && toAdd.memberId in r.store.docs
        && r.store.order == store.order + [toAdd.memberId]
        && r.store.docs[toAdd.memberId].(billsSponsored := [], billsCosponsored := []) == created
  {
  }

  /**
   * A stored member keeps every field except the five allow-listed ones,
   * which come from the transform, and its two bill lists.
   */
  lemma AddMemberUpdatesAllowListOnly(store: MemberStore, toAdd: MemberInput, now: int,
                                      introduced: Json, addIntroduced: Outcome,
                                      cosponsored: Json, addCosponsored: Outcome)
    requires ValidStore(store) && toAdd.memberId in store.docs
    ensures var r := AddTransformed(store, toAdd, now, introduced, addIntroduced, cosponsored, addCosponsored);
      var before := store.docs[toAdd.memberId];
      && toAdd.memberId in r.store.docs && r.store.order == store.order
      && var after := r.store.docs[toAdd.memberId];
         && after.shortTitle == toAdd.shortTitle && after.chamber == toAdd.chamber
         && after.title == toAdd.title && after.party == toAdd.party
         && after.lastUpdated == toAdd.lastUpdated
         && after.(shortTitle := before.shortTitle, chamber := before.chamber, title := before.title,
                   party := before.party, lastUpdated := before.lastUpdated,
                   billsSponsored := before.billsSponsored, billsCosponsored := before.billsCosponsored)
            == before
  {
    var id := toAdd.memberId;
    var mid := UpdateFrom(store.docs[id], toAdd);
    var base := UpsertBase(store, toAdd);
    assert base == AddResult(Save(store, id, mid), Ok(mid));
    var first := FetchedIds(introduced, id, Introduced, now, addIntroduced);
    var second := FetchedIds(cosponsored, id, Cosponsored, now, addCosponsored);
    var merged := MergeFetched(base.store, id, first, second);
    assert AddTransformed(store, toAdd, now, introduced, addIntroduced, cosponsored, addCosponsored) == merged;
    if merged.result.Ok? {
      assert merged.store.docs[id] == MergeBillLists(mid, first.value, second.value);
    } else {
      assert merged.store.docs[id] == mid;
    }
  }

  /** The stored list of one kind before `addMember`: empty for a member not yet stored. */
  function OldBills(store: MemberStore, id: Value, kind: BillList): seq<Value> {
    if id !in store.docs then []
    else if kind == Introduced then store.docs[id].billsSponsored
    else store.docs[id].billsCosponsored
  }

  /**
   * When every step succeeds, each bill list is the de-duplicated
   * concatenation of the list stored before (empty for a new member) and the
   * ids just collected, and the promise settles with the saved record.
   */
  lemma AddMemberMergesBillLists(store: MemberStore, toAdd: MemberInput, now: int,
                                 introduced: Json, addIntroduced: Outcome,
                                 cosponsored: Json, addCosponsored: Outcome)
    requires ValidStore(store)
    requires AddTransformed(store, toAdd, now, introduced, addIntroduced, cosponsored, addCosponsored).result.Ok?
    ensures var id := toAdd.memberId;
      var r := AddTransformed(store, toAdd, now, introduced, addIntroduced, cosponsored, addCosponsored);
      && id in r.store.docs && r.result == Ok(r.store.docs[id])
      && r.store.docs[id].billsSponsored
         == RemoveDuplicates(OldBills(store, id, Introduced) + FetchedIds(introduced, id, Introduced, now, addIntroduced).value)
      && r.store.docs[id].billsCosponsored
         == RemoveDuplicates(OldBills(store, id, Cosponsored) + FetchedIds(cosponsored, id, Cosponsored, now, addCosponsored).value)
  {
    var id := toAdd.memberId;
    var first := FetchedIds(introduced, id, Introduced, now, addIntroduced);
    var second := FetchedIds(cosponsored, id, Cosponsored, now, addCosponsored);
    assert AddTransformed(store, toAdd, now, introduced, addIntroduced, cosponsored, addCosponsored)
        == MergeFetched(UpsertBase(store, toAdd).store, id, first, second);
    MergeAfterUpsert(store, toAdd, first, second);
  }

  /** The merge step after the upsert, for any two collected id lists. */
  lemma MergeAfterUpsert(store: MemberStore, toAdd: MemberInput, first: Result<seq<Value>>, second: Result<seq<Value>>)
    requires ValidStore(store)
    requires UpsertBase(store, toAdd).result.Ok?
    requires MergeFetched(UpsertBase(store, toAdd).store, toAdd.memberId, first, second).result.Ok?
    ensures var id := toAdd.memberId;
      var r := MergeFetched(UpsertBase(store, toAdd).store, id, first, second);
      && id in r.store.docs && r.result == Ok(r.store.docs[id])
      && r.store.docs[id].billsSponsored == RemoveDuplicates(OldBills(store, id, Introduced) + first.value)
      && r.store.docs[id].billsCosponsored == RemoveDuplicates(OldBills(store, id, Cosponsored) + second.value)
  {
    var base := UpsertBase(store, toAdd);
    assert base.result.value.billsSponsored == OldBills(store, toAdd.memberId, Introduced);
    assert base.result.value.billsCosponsored == OldBills(store, toAdd.memberId, Cosponsored);
  }

  lemma MergedListFacts<T(!new)>(merged: seq<T>, prev: seq<T>, added: seq<T>)
    requires merged == RemoveDuplicates(prev + added)
    ensures Distinct(merged) && RemoveDuplicates(prev) <= merged
    ensures forall x :: x in prev ==> x in merged
  {
    MergeKeepsOld(prev, added);
  }

  /**
   * So after a successful `addMember` no old id is dropped, the old ids keep
   * their order at the front, and no id appears twice.
   */
  lemma AddMemberKeepsOldBillIds(store: MemberStore, toAdd: MemberInput, now: int,
                                 introduced: Json, addIntroduced: Outcome,
                                 cosponsored: Json, addCosponsored: Outcome)
    requires ValidStore(store)
    requires AddTransformed(store, toAdd, now, introduced, addIntroduced, cosponsored, addCosponsored).result.Ok?
    ensures var id := toAdd.memberId;
      var after := AddTransformed(store, toAdd, now, introduced, addIntroduced, cosponsored, addCosponsored).result.value;
      && Distinct(after.billsSponsored) && Distinct(after.billsCosponsored)
      && RemoveDuplicates(OldBills(store, id, Introduced)) <= after.billsSponsored
      && RemoveDuplicates(OldBills(store, id, Cosponsored)) <= after.billsCosponsored
      && (forall x :: x in OldBills(store, id, Introduced) ==> x in after.billsSponsored)
      && (forall x :: x in OldBills(store, id, Cosponsored) ==> x in after.billsCosponsored)
  {
    var id := toAdd.memberId;
    AddMemberMergesBillLists(store, toAdd, now, introduced, addIntroduced, cosponsored, addCosponsored);
    var after := AddTransformed(store, toAdd, now, introduced, addIntroduced, cosponsored, addCosponsored).result.value;
    MergedListFacts(after.billsSponsored, OldBills(store, id, Introduced),
                    FetchedIds(introduced, id, Introduced, now, addIntroduced).value);
    MergedListFacts(after.billsCosponsored, OldBills(store, id, Cosponsored),
                    FetchedIds(cosponsored, id, Cosponsored, now, addCosponsored).value);
  }

  /**
   * A failed fetch or a failed `addMultipleBills` rejects, but the member
   * created or updated before it stays written.
   */
  lemma AddMemberFailureKeepsEarlierWrites(store: MemberStore, toAdd: MemberInput, now: int,
                                           introduced: Json, addIntroduced: Outcome,
                                           cosponsored: Json, addCosponsored: Outcome)
    requires ValidStore(store) && UpsertBase(store, toAdd).result.Ok?
    ensures var r := AddTransformed(store, toAdd, now, introduced, addIntroduced, cosponsored, addCosponsored);
      var base := UpsertBase(store, toAdd);
      var first := FetchedIds(introduced, toAdd.memberId, Introduced, now, addIntroduced);
      var second := FetchedIds(cosponsored, toAdd.memberId, Cosponsored, now, addCosponsored);
      && (first.Err? ==> r == AddResult(base.store, Err(first.error)))
      && (first.Ok? && second.Err? ==> r == AddResult(base.store, Err(second.error)))
  {
  }

  /** `billsToAdd.forEach(bill => list.push(bill.billId))` */
  method PushBillIds(list: seq<Value>, billsToAdd: seq<BillModels.BillInput>) returns (r: seq<Value>)
    ensures r == list + BillIds(billsToAdd)
  {
    r := list;
    for i := 0 to |billsToAdd|
      invariant r == list + BillIds(billsToAdd[..i])
    {
      assert billsToAdd[..i + 1][..i] == billsToAdd[..i];
      assert BillIds(billsToAdd[..i + 1]) == BillIds(billsToAdd[..i]) + [billsToAdd[i].billId];
      r := r + [billsToAdd[i].billId];
    }
    assert billsToAdd[..|billsToAdd|] == billsToAdd;
  }

  /** `updateableFields.forEach(field => member[field] = memberToAdd[field])` */
  method ApplyUpdates(member: Member, memberToAdd: MemberInput) returns (r: Member)
    ensures r == UpdateFrom(member, memberToAdd)
  {
    r := member;
    for i := 0 to |UpdateableFields|
      invariant r == AssignAll(member, UpdateableFields[..i], memberToAdd)
    {
      assert UpdateableFields[..i + 1][..i] == UpdateableFields[..i];
      r := Assign(r, UpdateableFields[i], memberToAdd);
    }
    assert UpdateableFields[..|UpdateableFields|] == UpdateableFields;
  }

  /** `Member.findOne(...)`, then `Member.create(memberToAdd)` or the allow-listed overwrite and `member.save()`. */
  method Upsert(members: MemberModel, memberToAdd: MemberInput) returns (r: Result<Member>)
    requires members.Valid()
    modifies members
    ensures members.Valid()
    ensures AddResult(members.Contents(), r) == UpsertBase(old(members.Contents()), memberToAdd)
  {
    var found := members.Find(memberToAdd.memberId);
    if found.None? {
      r := members.Create(memberToAdd);
    } else {
      var member := ApplyUpdates(found.value, memberToAdd);
      members.Save(member);
      r := Ok(member);
    }
  }

  /** One bill-list fetch with its `billsToAdd.forEach(...push...)` and `addMultipleBills`. */
  method CollectIds(list: seq<Value>, res: Json, memberId: Value, kind: BillList, now: int, added: Outcome)
    returns (r: Result<seq<Value>>)
    ensures r.Ok? <==> FetchedIds(res, memberId, kind, now, added).Ok?
    ensures r.Err? ==> r == FetchedIds(res, memberId, kind, now, added)
    ensures r.Ok? ==> r.value == list + FetchedIds(res, memberId, kind, now, added).value
  {
    var proPubBills :- FetchedBills(res, memberId, kind, now);
    var ids := PushBillIds(list, proPubBills);
    if added.Fail? {
      return Err(added.error);
    }
    r := Ok(ids);
  }

  /**
   * The two fetches, then `Member.findOne({memberId})` and the save of the
   * merged lists.
   */
  method MergeFetchedInto(members: MemberModel, memberId: Value, now: int,
                          introduced: Json, addIntroduced: Outcome,
                          cosponsored: Json, addCosponsored: Outcome) returns (r: Result<Member>)
    requires members.Valid() && memberId in members.docs
    modifies members
    ensures members.Valid()
    ensures AddResult(members.Contents(), r)
         == MergeFetched(old(members.Contents()), memberId,
                         FetchedIds(introduced, memberId, Introduced, now, addIntroduced),
                         FetchedIds(cosponsored, memberId, Cosponsored, now, addCosponsored))
  {
    ghost var before := members.Contents();
    ghost var sponsored := FetchedIds(introduced, memberId, Introduced, now, addIntroduced);
    ghost var cosponsoredIds := FetchedIds(cosponsored, memberId, Cosponsored, now, addCosponsored);
    var billsSponsored := CollectIds([], introduced, memberId, Introduced, now, addIntroduced);
    if billsSponsored.Err? {
      assert MergeFetched(before, memberId, sponsored, cosponsoredIds) == AddResult(before, Err(billsSponsored.error));
      return Err(billsSponsored.error);
    }
    var billsCosponsored := CollectIds([], cosponsored, memberId, Cosponsored, now, addCosponsored);
    if billsCosponsored.Err? {
      assert MergeFetched(before, memberId, sponsored, cosponsoredIds) == AddResult(before, Err(billsCosponsored.error));
      return Err(billsCosponsored.error);
    }
    assert billsSponsored.value == sponsored.value && billsCosponsored.value == cosponsoredIds.value;
    var member := members.Find(memberId).value;
    member := member.(billsSponsored := RemoveDuplicates(member.billsSponsored + billsSponsored.value),
                      billsCosponsored := RemoveDuplicates(member.billsCosponsored + billsCosponsored.value));
    members.Save(member);
    r := Ok(member);
  }

  /**
   * `addMember`, step by step against the member collection. It settles as
   * `AddMemberSpec` says and leaves the collection as `AddMemberSpec` says.
   */
  method AddMember(members: MemberModel, proPublicaMemberResult: Value, now: int,
                   introduced: Json, addIntroduced: Outcome,
                   cosponsored: Json, addCosponsored: Outcome) returns (r: Result<Member>)
    requires members.Valid()
    modifies members
    ensures members.Valid()
    ensures AddResult(members.Contents(), r)
         == AddMemberSpec(old(members.Contents()), proPublicaMemberResult, now,
                          introduced, addIntroduced, cosponsored, addCosponsored)
  {
    ghost var before := members.Contents();
    var memberToAdd :- ProPublicaMemberToMongo(proPublicaMemberResult, now);
    ghost var spec := AddTransformed(before, memberToAdd, now, introduced, addIntroduced, cosponsored, addCosponsored);
    assert AddMemberSpec(before, proPublicaMemberResult, now, introduced, addIntroduced, cosponsored, addCosponsored) == spec;
    var upserted := Upsert(members, memberToAdd);
    if upserted.Err? {
      assert spec == UpsertBase(before, memberToAdd);
      return upserted;
    }
    var memberId := upserted.value.memberId;
    ghost var base := members.Contents();
    assert spec == MergeFetched(base, memberId,
                                FetchedIds(introduced, memberId, Introduced, now, addIntroduced),
                                FetchedIds(cosponsored, memberId, Cosponsored, now, addCosponsored));
    r := MergeFetchedInto(members, memberId, now, introduced, addIntroduced, cosponsored, addCosponsored);
  }
}
