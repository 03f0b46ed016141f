/** The business app: one business per owner, unique names and slugs, a slug that is set
    once, and the verification-request workflow. */
module Businesses {
  import opened Common
  import opened Tables

  /** A business. `country`, `region` and `city` are read by the explore views; nothing in
      this app writes them, so a new business has them empty. */
  datatype Business = Business(
    id: Id,
    owner: Id,
    name: string,
    description: string,
    category: string,
    country: string,
    region: string,
    city: string,
    isVerified: bool,
    createdAt: Time,
    slug: string)

  datatype VerificationRequest = VerificationRequest(
    id: Id,
    business: Id,
    message: string,
    isApproved: bool,
    reviewedBy: Option<Id>,
    createdAt: Time)

  // ---------------------------------------------------------------------------
  // Business.save
  // ---------------------------------------------------------------------------

  /** The slug `Business.save` stores: an empty slug becomes `slugify(name)`, any other is
      kept. `slugify` is a parameter. */
  function SaveSlug(slug: string, name: string, slugify: string -> string): (r: string)
    ensures slug != "" ==> r == slug
    ensures slug == "" ==> r == slugify(name)
  {
    if slug == "" then slugify(name) else slug
  }

  /** The slug is set once: after a save that produced a non-empty slug, later saves keep it
      whatever the name has become. */
  lemma SlugSetOnce(slug: string, name: string, laterName: string, slugify: string -> string)
    requires SaveSlug(slug, name, slugify) != ""
    ensures SaveSlug(SaveSlug(slug, name, slugify), laterName, slugify) == SaveSlug(slug, name, slugify)
  {
  }

  /** A partial update from the client, then `save`. Owner, verification flag, id and
      creation time are read-only. */
  function Edited(b: Business, name: Option<string>, description: Option<string>, category: Option<string>,
                  slug: Option<string>, slugify: string -> string): (r: Business)
    ensures r.id == b.id && r.owner == b.owner && r.isVerified == b.isVerified && r.createdAt == b.createdAt
    ensures r.country == b.country && r.region == b.region && r.city == b.city
    ensures slug.None? && b.slug != "" ==> r.slug == b.slug
    ensures r.slug != "" || (if name.Some? then slugify(name.value) else slugify(b.name)) == ""
    ensures name.Some? ==> r.name == name.value
    ensures name.None? ==> r.name == b.name
    ensures description.Some? ==> r.description == description.value
    ensures description.None? ==> r.description == b.description
    ensures category.Some? ==> r.category == category.value
    ensures category.None? ==> r.category == b.category
    ensures slug.Some? && slug.value != "" ==> r.slug == slug.value
    ensures (if slug.Some? then slug.value else b.slug) == "" ==> r.slug == slugify(r.name)
  {
    var e := b.(name := if name.Some? then name.value else b.name,
                description := if description.Some? then description.value else b.description,
                category := if category.Some? then category.value else b.category,
                slug := if slug.Some? then slug.value else b.slug);
    e.(slug := SaveSlug(e.slug, e.name, slugify))
  }

  // ---------------------------------------------------------------------------
  // Lookups
  // ---------------------------------------------------------------------------

  function BusinessIndex(bs: seq<Business>, pk: Id): (r: Option<nat>)
    ensures r.Some? ==> r.value < |bs| && bs[r.value].id == pk
    ensures r.None? ==> forall k :: 0 <= k < |bs| ==> bs[k].id != pk
  {
    FindFirst(bs, (b: Business) => b.id == pk)
  }

  /** `Business.objects.get(owner=user)`. */
  function OwnedIndex(bs: seq<Business>, owner: Id): (r: Option<nat>)
    ensures r.Some? ==> r.value < |bs| && bs[r.value].owner == owner
    ensures r.None? ==> forall k :: 0 <= k < |bs| ==> bs[k].owner != owner
  {
    FindFirst(bs, (b: Business) => b.owner == owner)
  }

  function RequestIndex(rs: seq<VerificationRequest>, pk: Id): (r: Option<nat>)
    ensures r.Some? ==> r.value < |rs| && rs[r.value].id == pk
    ensures r.None? ==> forall k :: 0 <= k < |rs| ==> rs[k].id != pk
  {
    FindFirst(rs, (v: VerificationRequest) => v.id == pk)
  }

  /** `hasattr(business, 'verification_request')`. */
  predicate HasRequest(rs: seq<VerificationRequest>, business: Id) {
    exists k :: 0 <= k < |rs| && rs[k].business == business
  }

  /** Another business than the one at `skip` already has this name. */
  predicate NameTaken(bs: seq<Business>, name: string, skip: int) {
    exists k :: 0 <= k < |bs| && k != skip && bs[k].name == name
  }

  predicate SlugTaken(bs: seq<Business>, slug: string, skip: int) {
    exists k :: 0 <= k < |bs| && k != skip && bs[k].slug == slug
  }

  /** What `BusinessSerializer` accepts for a new business: a name and a category, a name no
      other business has, and a slug, when one is sent, no other business has. */
  predicate CreateInputOk(bs: seq<Business>, name: string, category: string, slug: string) {
    name != "" && category != "" && !NameTaken(bs, name, -1) && (slug == "" || !SlugTaken(bs, slug, -1))
  }

  /** The same checks for a partial update of the business at `k`, which may keep its own
      name and slug. */
  predicate UpdateInputOk(bs: seq<Business>, k: nat, name: Option<string>, category: Option<string>, slug: Option<string>) {
    && (name.None? || (name.value != "" && !NameTaken(bs, name.value, k)))
    && (category.None? || category.value != "")
    && (slug.None? || slug.value == "" || !SlugTaken(bs, slug.value, k))
  }

  // ---------------------------------------------------------------------------
  // Integrity of the tables
  // ---------------------------------------------------------------------------

  function BusinessId(b: Business): Id { b.id }
  function BusinessOwner(b: Business): Id { b.owner }
  function BusinessName(b: Business): string { b.name }
  function BusinessSlug(b: Business): string { b.slug }

  /** Ids below the counter and unique; owner, name and slug unique (`OneToOneField` and
      `unique=True`). */
  ghost predicate BusinessTableOk(bs: seq<Business>, nextId: Id) {
    && (forall k :: 0 <= k < |bs| ==> bs[k].id < nextId)
    && UniqueKeys(bs, BusinessId)
    && UniqueKeys(bs, BusinessOwner)
    && UniqueKeys(bs, BusinessName)
    && UniqueKeys(bs, BusinessSlug)
  }

  function RequestId(v: VerificationRequest): Id { v.id }
  function RequestBusiness(v: VerificationRequest): Id { v.business }

  /** Ids below the counter and unique; each request belongs to a stored business, and a
      business has at most one. */
  ghost predicate RequestTableOk(rs: seq<VerificationRequest>, nextId: Id, bs: seq<Business>) {
    && (forall k :: 0 <= k < |rs| ==> rs[k].id < nextId)
    && UniqueKeys(rs, RequestId)
    && UniqueKeys(rs, RequestBusiness)
    && (forall k :: 0 <= k < |rs| ==> BusinessIndex(bs, rs[k].business).Some?)
  }

  /** Two business tables with the same ids position by position answer every lookup alike. */
  lemma BusinessIndexSameIds(a: seq<Business>, b: seq<Business>, pk: Id)
    requires |a| == |b| && forall i :: 0 <= i < |a| ==> a[i].id == b[i].id
    ensures BusinessIndex(a, pk).Some? == BusinessIndex(b, pk).Some?
  {
    var x := BusinessIndex(a, pk);
    if x.Some? {
      assert b[x.value].id == pk;
    }
  }

  lemma RequestsFollowRewrite(rs: seq<VerificationRequest>, nextId: Id, bs: seq<Business>, k: nat, b: Business)
    requires RequestTableOk(rs, nextId, bs) && k < |bs| && b.id == bs[k].id
    ensures RequestTableOk(rs, nextId, bs[k := b])
  {
    forall v | 0 <= v < |rs| ensures BusinessIndex(bs[k := b], rs[v].business).Some? {
      BusinessIndexSameIds(bs[k := b], bs, rs[v].business);
    }
  }

  lemma RequestsFollowAppend(rs: seq<VerificationRequest>, nextId: Id, bs: seq<Business>, b: Business)
    requires RequestTableOk(rs, nextId, bs)
    ensures RequestTableOk(rs, nextId, bs + [b])
  {
    forall v | 0 <= v < |rs| ensures BusinessIndex(bs + [b], rs[v].business).Some? {
      var x := BusinessIndex(bs, rs[v].business).value;
      assert (bs + [b])[x].id == rs[v].business;
    }
  }

  /** Deleting a business keeps the business table intact. */
  lemma RemoveKeepsBusinessTable(bs: seq<Business>, nextB: Id, k: nat)
    requires BusinessTableOk(bs, nextB) && k < |bs|
    ensures BusinessTableOk(RemoveAt(bs, k), nextB)
  {
    RemoveAtKeepsUniqueKeys(bs, BusinessId, k);
    RemoveAtKeepsUniqueKeys(bs, BusinessOwner, k);
    RemoveAtKeepsUniqueKeys(bs, BusinessName, k);
    RemoveAtKeepsUniqueKeys(bs, BusinessSlug, k);
    var bs' := RemoveAt(bs, k);
    forall a | 0 <= a < |bs'| ensures bs'[a].id < nextB {
      assert bs'[a] == bs[if a < k then a else a + 1];
    }
  }

  /** Deleting a business and, by cascade, its request keeps both tables intact. */
  lemma DeleteKeepsTables(bs: seq<Business>, nextB: Id, rs: seq<VerificationRequest>, nextR: Id, k: nat)
    requires BusinessTableOk(bs, nextB) && RequestTableOk(rs, nextR, bs) && k < |bs|
    ensures var rest := Filter(rs, (v: VerificationRequest) => v.business != bs[k].id);
            BusinessTableOk(RemoveAt(bs, k), nextB) && RequestTableOk(rest, nextR, RemoveAt(bs, k))
  {
    var bs' := RemoveAt(bs, k);
    var gone := (v: VerificationRequest) => v.business != bs[k].id;
    var rest := Filter(rs, gone);
    RemoveKeepsBusinessTable(bs, nextB, k);
    FilterKeepsUniqueKeys(rs, RequestId, gone);
    FilterKeepsUniqueKeys(rs, RequestBusiness, gone);
    forall v | 0 <= v < |rest| ensures rest[v].id < nextR && BusinessIndex(bs', rest[v].business).Some? {
      assert rest[v] in rs;
      var w :| 0 <= w < |rs| && rs[w] == rest[v];
      var x := BusinessIndex(bs, rs[w].business).value;
      assert x != k;
      assert bs'[if x < k then x else x - 1] == bs[x];
    }
  }

  /** Adding a business whose id, owner, name and slug are all new keeps the table intact. */
  lemma AppendKeepsBusinessTable(bs: seq<Business>, nextId: Id, b: Business)
    requires BusinessTableOk(bs, nextId) && b.id == nextId
    requires forall k :: 0 <= k < |bs| ==> bs[k].owner != b.owner && bs[k].name != b.name && bs[k].slug != b.slug
    ensures BusinessTableOk(bs + [b], nextId + 1)
  {
    AppendKeepsUniqueKeys(bs, BusinessOwner, b);
    AppendKeepsUniqueKeys(bs, BusinessName, b);
    AppendKeepsUniqueKeys(bs, BusinessSlug, b);
    AppendKeepsUniqueKeys(bs, BusinessId, b);
    var bs' := bs + [b];
    assert forall k :: 0 <= k < |bs| ==> bs'[k] == bs[k];
  }

  /** Rewriting the business at `k` with the same id, and an owner, name and slug no other
      business has, keeps the table intact. */
  lemma RewriteKeepsBusinessTable(bs: seq<Business>, nextId: Id, k: nat, b: Business)
    requires BusinessTableOk(bs, nextId) && k < |bs| && b.id == bs[k].id
    requires forall i :: 0 <= i < |bs| && i != k ==> bs[i].owner != b.owner && bs[i].name != b.name && bs[i].slug != b.slug
    ensures BusinessTableOk(bs[k := b], nextId)
  {
    UpdateKeepsUniqueKeys(bs, BusinessId, k, b);
    UpdateKeepsUniqueKeys(bs, BusinessOwner, k, b);
    UpdateKeepsUniqueKeys(bs, BusinessName, k, b);
    UpdateKeepsUniqueKeys(bs, BusinessSlug, k, b);
  }

  /** A new request for a stored business that has none keeps the request table intact. */
  lemma AddRequestKeepsTable(rs: seq<VerificationRequest>, nextId: Id, bs: seq<Business>, v: VerificationRequest)
    requires RequestTableOk(rs, nextId, bs) && v.id == nextId
    requires BusinessIndex(bs, v.business).Some? && !HasRequest(rs, v.business)
    ensures RequestTableOk(rs + [v], nextId + 1, bs)
  {
    AppendKeepsUniqueKeys(rs, RequestId, v);
    AppendKeepsUniqueKeys(rs, RequestBusiness, v);
    assert forall k :: 0 <= k < |rs| ==> (rs + [v])[k] == rs[k];
  }

  /** Rewriting request `k` with the same id and business keeps the request table intact. */
  lemma RewriteKeepsRequestTable(rs: seq<VerificationRequest>, nextId: Id, bs: seq<Business>, k: nat, v: VerificationRequest)
    requires RequestTableOk(rs, nextId, bs) && k < |rs| && v.id == rs[k].id && v.business == rs[k].business
    ensures RequestTableOk(rs[k := v], nextId, bs)
  {
    assert forall w :: 0 <= w < |rs| ==> rs[k := v][w].business == rs[w].business && rs[k := v][w].id == rs[w].id;
  }

  // ---------------------------------------------------------------------------
  // The store
  // ---------------------------------------------------------------------------

  class BusinessStore {
    var businesses: seq<Business>
    var requests: seq<VerificationRequest>
    var nextBusinessId: Id
    var nextRequestId: Id

    ghost predicate Valid()
      reads this
    {
      BusinessTableOk(businesses, nextBusinessId) && RequestTableOk(requests, nextRequestId, businesses)
    }

    constructor ()
      ensures Valid() && businesses == [] && requests == []
    {
      businesses, requests, nextBusinessId, nextRequestId := [], [], 1, 1;
    }

    /** `BusinessListCreateView.perform_create`: the serializer checks first, then a
        requester who already owns a business is refused; the new business belongs to the
        requester and is unverified. A slug that collides in the database is refused there. */
    method Create(requester: Id, name: string, description: string, category: string, slug: string,
                  slugify: string -> string, now: Time)
      returns (st: Status)
      requires Valid()
      modifies this
      ensures Valid() && requests == old(requests)
      ensures !CreateInputOk(old(businesses), name, category, slug) ==> st == BadRequest && unchanged(this)
      ensures CreateInputOk(old(businesses), name, category, slug) && OwnedIndex(old(businesses), requester).Some? ==>
                st == BadRequest && unchanged(this)
      ensures CreateInputOk(old(businesses), name, category, slug) && OwnedIndex(old(businesses), requester).None? ==>
                if SlugTaken(old(businesses), SaveSlug(slug, name, slugify), -1) then
                  st == IntegrityRaised && unchanged(this)
                else
                  st == Created
                  && businesses == old(businesses) + [Business(old(nextBusinessId), requester, name, description, category,
                                                               "", "", "", false, now, SaveSlug(slug, name, slugify))]
    {
      if !CreateInputOk(businesses, name, category, slug) || OwnedIndex(businesses, requester).Some? {
        return BadRequest;
      }
      var s := SaveSlug(slug, name, slugify);
      if SlugTaken(businesses, s, -1) {
        return IntegrityRaised;
      }
      var b := Business(nextBusinessId, requester, name, description, category, "", "", "", false, now, s);
      AppendKeepsBusinessTable(businesses, nextBusinessId, b);
      RequestsFollowAppend(requests, nextRequestId, businesses, b);
      businesses := businesses + [b];
      nextBusinessId := nextBusinessId + 1;
      st := Created;
    }

    /** `BusinessDetailView.perform_update`: 404 for an unknown business, 400 when the
        serializer refuses the data, `PermissionError` for anyone but the owner. */
    method Update(requester: Id, pk: Id, name: Option<string>, description: Option<string>,
                  category: Option<string>, slug: Option<string>, slugify: string -> string)
      returns (st: Status)
      requires Valid()
      modifies this
      ensures Valid() && requests == old(requests)
      ensures nextBusinessId == old(nextBusinessId) && nextRequestId == old(nextRequestId)
      ensures BusinessIndex(old(businesses), pk).None? ==> st == NotFound && unchanged(this)
      ensures BusinessIndex(old(businesses), pk).Some? ==>
                var k := BusinessIndex(old(businesses), pk).value;
                var e := Edited(old(businesses)[k], name, description, category, slug, slugify);
                if !UpdateInputOk(old(businesses), k, name, category, slug) then
                  st == BadRequest && unchanged(this)
                else if old(businesses)[k].owner != requester then
                  st == PermissionRaised && unchanged(this)
                else if SlugTaken(old(businesses), e.slug, k) then
                  st == IntegrityRaised && unchanged(this)
                else
                  st == Ok && businesses == old(businesses)[k := e]
    {
      var found := BusinessIndex(businesses, pk);
      if found.None? {
        return NotFound;
      }
      var k := found.value;
      if !UpdateInputOk(businesses, k, name, category, slug) {
        return BadRequest;
      }
      if businesses[k].owner != requester {
        return PermissionRaised;
      }
      var e := Edited(businesses[k], name, description, category, slug, slugify);
      if SlugTaken(businesses, e.slug, k) {
        return IntegrityRaised;
      }
      assert !NameTaken(businesses, e.name, k);
      RewriteKeepsBusinessTable(businesses, nextBusinessId, k, e);
      RequestsFollowRewrite(requests, nextRequestId, businesses, k, e);
      businesses := businesses[k := e];
      st := Ok;
    }

    /** `BusinessDetailView.perform_destroy`: only the owner deletes; the verification
        request goes with the business. */
    method Delete(requester: Id, pk: Id) returns (st: Status)
      requires Valid()
      modifies this
      ensures Valid()
      ensures nextBusinessId == old(nextBusinessId) && nextRequestId == old(nextRequestId)
      ensures BusinessIndex(old(businesses), pk).None? ==> st == NotFound && unchanged(this)
      ensures BusinessIndex(old(businesses), pk).Some? ==>
                var k := BusinessIndex(old(businesses), pk).value;
                if old(businesses)[k].owner != requester then
                  st == PermissionRaised && unchanged(this)
                else
                  && st == NoContent
                  && businesses == RemoveAt(old(businesses), k)
                  && (forall v :: v in requests <==> v in old(requests) && v.business != pk)
    {
      var found := BusinessIndex(businesses, pk);
      if found.None? {
        return NotFound;
      }
      var k := found.value;
      if businesses[k].owner != requester {
        return PermissionRaised;
      }
      DeleteKeepsTables(businesses, nextBusinessId, requests, nextRequestId, k);
      var gone := businesses[k].id;
      requests := Filter(requests, (v: VerificationRequest) => v.business != gone);
      businesses := RemoveAt(businesses, k);
      st := NoContent;
    }

    /** `BusinessVerificationRequestCreateView.post`: 404 without a business, 400 when a
        request exists or the body is refused, otherwise one unapproved, unreviewed request
        for the requester's business. */
    method RequestVerification(requester: Id, message: string, bodyValid: bool, now: Time)
      returns (st: Status)
      requires Valid()
      modifies this
      ensures Valid() && businesses == old(businesses)
      ensures OwnedIndex(old(businesses), requester).None? ==> st == NotFound && unchanged(this)
      ensures OwnedIndex(old(businesses), requester).Some? ==>
                var b := old(businesses)[OwnedIndex(old(businesses), requester).value];
                if HasRequest(old(requests), b.id) || !bodyValid then
                  st == BadRequest && unchanged(this)
                else
                  st == Ok && requests == old(requests) + [VerificationRequest(old(nextRequestId), b.id, message, false, None, now)]
    {
      var found := OwnedIndex(businesses, requester);
      if found.None? {
        return NotFound;
      }
      var b := businesses[found.value];
      if HasRequest(requests, b.id) || !bodyValid {
        return BadRequest;
      }
      var v := VerificationRequest(nextRequestId, b.id, message, false, None, now);
      assert BusinessIndex(businesses, b.id).Some?;
      AddRequestKeepsTable(requests, nextRequestId, businesses, v);
      requests := requests + [v];
      nextRequestId := nextRequestId + 1;
      st := Ok;
    }

    /** `BusinessVerificationApproveView.post` (staff only): the request is approved and
        records its reviewer, and its business becomes verified. */
    method Approve(admin: Id, isStaff: bool, pk: Id) returns (st: Status)
      requires Valid()
      modifies this
      ensures Valid()
      ensures nextBusinessId == old(nextBusinessId) && nextRequestId == old(nextRequestId)
      ensures !isStaff ==> st == Forbidden && unchanged(this)
      ensures isStaff && RequestIndex(old(requests), pk).None? ==> st == NotFound && unchanged(this)
      ensures isStaff && RequestIndex(old(requests), pk).Some? ==>
                var k := RequestIndex(old(requests), pk).value;
                var j := BusinessIndex(old(businesses), old(requests)[k].business).value;
                && st == Ok
                && requests == old(requests)[k := old(requests)[k].(isApproved := true, reviewedBy := Some(admin))]
                && businesses == old(businesses)[j := old(businesses)[j].(isVerified := true)]
    {
      if !isStaff {
        return Forbidden;
      }
      var found := RequestIndex(requests, pk);
      if found.None? {
        return NotFound;
      }
      var k := found.value;
      var j := BusinessIndex(businesses, requests[k].business).value;
      var b := businesses[j].(isVerified := true);
      var v := requests[k].(isApproved := true, reviewedBy := Some(admin));
      RewriteKeepsBusinessTable(businesses, nextBusinessId, j, b);
      RewriteKeepsRequestTable(requests, nextRequestId, businesses, k, v);
      RequestsFollowRewrite(requests[k := v], nextRequestId, businesses, j, b);
      businesses := businesses[j := b];
      requests := requests[k := v];
      st := Ok;
    }
  }
}
