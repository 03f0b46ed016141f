/** The ratings app: one rating per (rater, rated user), stars validated to 1..5, and the
    rated user's `average_rating` kept equal to the mean of the stars they received. */
module Ratings {
  import opened Common
  import opened Tables
  import opened Sorting
  import Accounts
  import Notifications

  const DefaultStars: int := 1

  datatype Rating = Rating(id: Id, rater: Id, ratedUser: Id, stars: nat, comment: string, createdAt: Time)

  /** `RatingSerializer.validate_stars`. */
  function ValidateStars(value: int): (r: Result<nat>)
    ensures r.Success? <==> 1 <= value <= 5
    ensures r.Success? ==> r.value == value
    ensures r.Failure? ==> r.status == BadRequest
  {
    if value < 1 || value > 5 then Failure(BadRequest) else Success(value)
  }

  /** An omitted `stars` takes the field default. */
  function StarsOrDefault(stars: Option<int>): int {
    if stars.Some? then stars.value else DefaultStars
  }

  // ---------------------------------------------------------------------------
  // `Avg('stars')` over one user's ratings
  // ---------------------------------------------------------------------------

  function Contribution(r: Rating, u: Id): nat {
    if r.ratedUser == u then r.stars else 0
  }

  function Counted(r: Rating, u: Id): nat {
    if r.ratedUser == u then 1 else 0
  }

  function StarsTotal(ratings: seq<Rating>, u: Id): nat {
    if ratings == [] then 0 else Contribution(ratings[0], u) + StarsTotal(ratings[1..], u)
  }

  function RatingCount(ratings: seq<Rating>, u: Id): nat {
    if ratings == [] then 0 else Counted(ratings[0], u) + RatingCount(ratings[1..], u)
  }

  /** `avg or 0`: the mean of the stars `u` received, and 0 when there are none. */
  function Mean(ratings: seq<Rating>, u: Id): real {
    if RatingCount(ratings, u) == 0 then 0.0
    else StarsTotal(ratings, u) as real / RatingCount(ratings, u) as real
  }

  lemma {:induction false} TotalsConcat(a: seq<Rating>, b: seq<Rating>, u: Id)
    ensures StarsTotal(a + b, u) == StarsTotal(a, u) + StarsTotal(b, u)
    ensures RatingCount(a + b, u) == RatingCount(a, u) + RatingCount(b, u)
  {
    if a == [] {
      assert a + b == b;
    } else {
      assert (a + b)[1..] == a[1..] + b;
      TotalsConcat(a[1..], b, u);
    }
  }

  lemma TotalsSingle(r: Rating, u: Id)
    ensures StarsTotal([r], u) == Contribution(r, u) && RatingCount([r], u) == Counted(r, u)
  {
    assert [r][1..] == [];
  }

  ghost predicate StarsInRange(ratings: seq<Rating>) {
    forall k :: 0 <= k < |ratings| ==> 1 <= ratings[k].stars <= 5
  }

  lemma {:induction false} TotalBounds(ratings: seq<Rating>, u: Id)
    requires StarsInRange(ratings)
    ensures RatingCount(ratings, u) <= StarsTotal(ratings, u) <= 5 * RatingCount(ratings, u)
  {
    if ratings != [] {
      assert StarsInRange(ratings[1..]) by {
        forall k | 0 <= k < |ratings[1..]| ensures 1 <= ratings[1..][k].stars <= 5 {
          assert ratings[1..][k] == ratings[k + 1];
        }
      }
      TotalBounds(ratings[1..], u);
    }
  }

  /** With every rating in 1..5, the mean of a user with ratings lies in [1, 5]; a user with
      none has mean 0. */
  lemma MeanBounds(ratings: seq<Rating>, u: Id)
    requires StarsInRange(ratings)
    ensures RatingCount(ratings, u) == 0 ==> Mean(ratings, u) == 0.0
    ensures RatingCount(ratings, u) > 0 ==> 1.0 <= Mean(ratings, u) <= 5.0
  {
    TotalBounds(ratings, u);
    var c, t := RatingCount(ratings, u), StarsTotal(ratings, u);
    if c > 0 {
      QuotientBounds(t as real, c as real);
    }
  }

  lemma QuotientBounds(t: real, c: real)
    requires c > 0.0 && c <= t <= 5.0 * c
    ensures 1.0 <= t / c <= 5.0
  {
    var m := t / c;
    assert (m - 1.0) * c == t - c;
    assert (5.0 - m) * c == 5.0 * c - t;
  }

  /** A new rating adds its stars to its rated user's totals and nothing to anyone else's. */
  lemma TotalsAppend(ratings: seq<Rating>, r: Rating, u: Id)
    ensures StarsTotal(ratings + [r], u) == StarsTotal(ratings, u) + Contribution(r, u)
    ensures RatingCount(ratings + [r], u) == RatingCount(ratings, u) + Counted(r, u)
  {
    TotalsConcat(ratings, [r], u);
    TotalsSingle(r, u);
  }

  /** Rewriting a rating replaces its contribution rather than adding to it. */
  lemma TotalsUpdate(ratings: seq<Rating>, k: nat, r: Rating, u: Id)
    requires k < |ratings|
    ensures StarsTotal(ratings[k := r], u) == StarsTotal(ratings, u) - Contribution(ratings[k], u) + Contribution(r, u)
    ensures RatingCount(ratings[k := r], u) == RatingCount(ratings, u) - Counted(ratings[k], u) + Counted(r, u)
  {
    var a, b := ratings[..k], ratings[k + 1..];
    assert ratings == a + [ratings[k]] + b;
    assert ratings[k := r] == a + [r] + b;
    TotalsConcat(a + [ratings[k]], b, u);
    TotalsConcat(a + [r], b, u);
    TotalsAppend(a, ratings[k], u);
    TotalsAppend(a, r, u);
  }

  /** Deleting a rating takes exactly its contribution away. */
  lemma TotalsRemove(ratings: seq<Rating>, k: nat, u: Id)
    requires k < |ratings|
    ensures StarsTotal(RemoveAt(ratings, k), u) == StarsTotal(ratings, u) - Contribution(ratings[k], u)
    ensures RatingCount(RemoveAt(ratings, k), u) == RatingCount(ratings, u) - Counted(ratings[k], u)
  {
    var a, b := ratings[..k], ratings[k + 1..];
    assert ratings == a + [ratings[k]] + b;
    assert RemoveAt(ratings, k) == a + b;
    TotalsConcat(a + [ratings[k]], b, u);
    TotalsConcat(a, b, u);
    TotalsAppend(a, ratings[k], u);
  }

  /** Every user's stored average equals the mean of the ratings they received. */
  ghost predicate AveragesAgree(users: seq<Accounts.User>, ratings: seq<Rating>) {
    forall i :: 0 <= i < |users| ==> users[i].averageRating == Mean(ratings, users[i].id)
  }

  /** A freshly registered user (average 0, no ratings received yet) keeps the averages in
      agreement. */
  lemma RegisteredUserAgrees(users: seq<Accounts.User>, ratings: seq<Rating>, id: Id, email: string)
    requires AveragesAgree(users, ratings)
    requires forall k :: 0 <= k < |ratings| ==> ratings[k].ratedUser != id
    ensures AveragesAgree(users + [Accounts.NewUser(id, email)], ratings)
  {
    assert RatingCount(ratings, id) == 0 by {
      NoRatingsCountZero(ratings, id);
    }
    var us := users + [Accounts.NewUser(id, email)];
    assert forall i :: 0 <= i < |users| ==> us[i] == users[i];
  }

  lemma {:induction false} NoRatingsCountZero(ratings: seq<Rating>, u: Id)
    requires forall k :: 0 <= k < |ratings| ==> ratings[k].ratedUser != u
    ensures RatingCount(ratings, u) == 0
  {
    if ratings != [] {
      NoRatingsCountZero(ratings[1..], u);
    }
  }

  /** `update_user_average` for each user in `touched`: their average is recomputed from
      `ratings`, and every other user is left as it was. */
  function Recount(users: seq<Accounts.User>, ratings: seq<Rating>, touched: set<Id>): (r: seq<Accounts.User>)
    ensures |r| == |users|
    ensures forall i :: 0 <= i < |users| && users[i].id !in touched ==> r[i] == users[i]
    ensures forall i :: 0 <= i < |users| && users[i].id in touched ==> r[i].averageRating == Mean(ratings, users[i].id)
    ensures forall i :: 0 <= i < |users| ==> r[i] == users[i].(averageRating := r[i].averageRating)
  {
    seq(|users|, i requires 0 <= i < |users| =>
      if users[i].id in touched then users[i].(averageRating := Mean(ratings, users[i].id)) else users[i])
  }

  /** After recomputing the users in `touched`, every user agrees again, provided no other
      user's totals moved. */
  lemma AgreeAfterRecount(users: seq<Accounts.User>, old_ratings: seq<Rating>, ratings: seq<Rating>, touched: set<Id>)
    requires AveragesAgree(users, old_ratings)
    requires forall v :: v !in touched ==>
               StarsTotal(ratings, v) == StarsTotal(old_ratings, v) && RatingCount(ratings, v) == RatingCount(old_ratings, v)
    ensures AveragesAgree(Recount(users, ratings, touched), ratings)
  {
  }

  /** Recounting keeps every lookup by id. */
  lemma RecountKeepsLookups(users: seq<Accounts.User>, ratings: seq<Rating>, touched: set<Id>, v: Id)
    ensures Accounts.UserIndex(Recount(users, ratings, touched), v) == Accounts.UserIndex(users, v)
  {
    Accounts.UserIndexSameIds(Recount(users, ratings, touched), users, v);
  }

  // ---------------------------------------------------------------------------
  // Lookups
  // ---------------------------------------------------------------------------

  /** `get_object()` by primary key. */
  function RatingIndex(ratings: seq<Rating>, pk: Id): (r: Option<nat>)
    ensures r.Some? ==> r.value < |ratings| && ratings[r.value].id == pk
    ensures r.None? ==> forall k :: 0 <= k < |ratings| ==> ratings[k].id != pk
  {
    FindFirst(ratings, (x: Rating) => x.id == pk)
  }

  /** Another row than `skip` already holds the pair (rater, ratedUser). */
  predicate PairTaken(ratings: seq<Rating>, rater: Id, ratedUser: Id, skip: int) {
    exists k :: 0 <= k < |ratings| && k != skip && ratings[k].rater == rater && ratings[k].ratedUser == ratedUser
  }

  ghost predicate UniquePairs(ratings: seq<Rating>) {
    forall i, j :: (0 <= i < |ratings| && 0 <= j < |ratings| && ratings[i].rater == ratings[j].rater
                    && ratings[i].ratedUser == ratings[j].ratedUser) ==> i == j
  }

  /** The partial-update inputs pass validation: stars, when given, are in 1..5, and the rated
      user, when given, exists. */
  predicate UpdateInputsOk(users: seq<Accounts.User>, ratedUser: Option<Id>, stars: Option<int>) {
    && (stars.None? || ValidateStars(stars.value).Success?)
    && (ratedUser.None? || Accounts.UserIndex(users, ratedUser.value).Some?)
  }

  /** The row after a partial update; `rater`, `id` and `created_at` are read-only. */
  function Revised(r: Rating, ratedUser: Option<Id>, stars: Option<int>, comment: Option<string>): Rating
    requires stars.Some? ==> stars.value >= 0
  {
    r.(ratedUser := if ratedUser.Some? then ratedUser.value else r.ratedUser,
       stars := if stars.Some? then stars.value as nat else r.stars,
       comment := if comment.Some? then comment.value else r.comment)
  }

  predicate NewerOrSame(a: Rating, b: Rating) {
    a.createdAt >= b.createdAt
  }

  function MatchesRatedUser(r: Rating, ratedUser: Option<Id>): bool {
    ratedUser.None? || r.ratedUser == ratedUser.value
  }

  /** `filter(rated_user_id=...)` when the parameter is given, and no filter otherwise. */
  function RatedFilter(ratedUser: Option<Id>): Rating -> bool {
    (x: Rating) => MatchesRatedUser(x, ratedUser)
  }

  // ---------------------------------------------------------------------------
  // The source as written: writes that do not go through `Rating.save`
  // ---------------------------------------------------------------------------

  /** `perform_destroy` as written: the row is deleted and no average is recomputed. */
  function DestroyAsWritten(users: seq<Accounts.User>, ratings: seq<Rating>, k: nat)
    : (r: (seq<Accounts.User>, seq<Rating>))
    requires k < |ratings|
    ensures r.0 == users && |r.1| == |ratings| - 1
    ensures r.1 == RemoveAt(ratings, k)
  {
    (users, RemoveAt(ratings, k))
  }

  /** `perform_update` as written: the row is rewritten and `save` recomputes the average of
      its new rated user only. */
  function UpdateAsWritten(users: seq<Accounts.User>, ratings: seq<Rating>, k: nat, r: Rating)
    : (res: (seq<Accounts.User>, seq<Rating>))
    requires k < |ratings|
    ensures |res.0| == |users| && res.1 == ratings[k := r]
    ensures forall i :: 0 <= i < |users| && users[i].id != r.ratedUser ==> res.0[i] == users[i]
    ensures forall i :: 0 <= i < |users| && users[i].id == r.ratedUser ==>
              res.0[i] == users[i].(averageRating := Mean(ratings[k := r], r.ratedUser))
  {
    var after := ratings[k := r];
    (seq(|users|, i requires 0 <= i < |users| =>
       if users[i].id == r.ratedUser then users[i].(averageRating := Mean(after, r.ratedUser)) else users[i]),
     after)
  }

  function SampleUser(id: Id, avg: real): Accounts.User {
    Accounts.NewUser(id, "").(averageRating := avg)
  }

  /** Deleting the only rating user 2 received leaves 5.0 stored where the mean is now 0. */
  lemma DestroyLeavesStaleAverage()
    ensures var users := [SampleUser(1, 0.0), SampleUser(2, 5.0)];
            var ratings := [Rating(1, 1, 2, 5, "", 0)];
            AveragesAgree(users, ratings)
            && !AveragesAgree(DestroyAsWritten(users, ratings, 0).0, DestroyAsWritten(users, ratings, 0).1)
  {
    var users := [SampleUser(1, 0.0), SampleUser(2, 5.0)];
    var ratings := [Rating(1, 1, 2, 5, "", 0)];
    TotalsSingle(ratings[0], 1);
    TotalsSingle(ratings[0], 2);
    assert Mean(ratings, 2) == 5.0;
    var res := DestroyAsWritten(users, ratings, 0);
    assert res.1 == [];
    assert Mean(res.1, 2) == 0.0;
    assert res.0[1].averageRating != Mean(res.1, res.0[1].id);
  }

  /** Moving user 1's rating from user 2 to user 3 leaves user 2's 5.0 in place although
      user 2 no longer has any rating. */
  lemma RetargetLeavesStaleAverage()
    ensures var users := [SampleUser(1, 0.0), SampleUser(2, 5.0), SampleUser(3, 0.0)];
            var ratings := [Rating(1, 1, 2, 5, "", 0)];
            var res := UpdateAsWritten(users, ratings, 0, Rating(1, 1, 3, 5, "", 0));
            AveragesAgree(users, ratings) && !AveragesAgree(res.0, res.1)
  {
    var users := [SampleUser(1, 0.0), SampleUser(2, 5.0), SampleUser(3, 0.0)];
    var ratings := [Rating(1, 1, 2, 5, "", 0)];
    var moved := Rating(1, 1, 3, 5, "", 0);
    TotalsSingle(ratings[0], 1);
    TotalsSingle(ratings[0], 2);
    TotalsSingle(ratings[0], 3);
    TotalsSingle(moved, 2);
    assert ratings[0 := moved] == [moved];
    var res := UpdateAsWritten(users, ratings, 0, moved);
    assert res.1 == [moved];
    assert Mean(res.1, 2) == 0.0;
    assert res.0[1] == users[1];
    assert res.0[1].averageRating != Mean(res.1, res.0[1].id);
  }

  // ---------------------------------------------------------------------------
  // Integrity of the table
  // ---------------------------------------------------------------------------

  /** Ids are unique and below the counter, each (rater, rated user) pair occurs once
      (`unique_together`), and every stored rating passed the validator. */
  ghost predicate RatingTableOk(ratings: seq<Rating>, nextId: Id) {
    && (forall k :: 0 <= k < |ratings| ==> ratings[k].id < nextId)
    && (forall i, j :: 0 <= i < |ratings| && 0 <= j < |ratings| && ratings[i].id == ratings[j].id ==> i == j)
    && UniquePairs(ratings)
    && StarsInRange(ratings)
  }

  /** Every rated user is a stored user. */
  ghost predicate RatedUsersExist(users: seq<Accounts.User>, ratings: seq<Rating>) {
    forall k :: 0 <= k < |ratings| ==> Accounts.UserIndex(users, ratings[k].ratedUser).Some?
  }

  lemma AppendKeepsTableOk(ratings: seq<Rating>, nextId: Id, row: Rating)
    requires RatingTableOk(ratings, nextId)
    requires row.id == nextId && 1 <= row.stars <= 5 && !PairTaken(ratings, row.rater, row.ratedUser, -1)
    ensures RatingTableOk(ratings + [row], nextId + 1)
  {
    var r := ratings + [row];
    assert forall k :: 0 <= k < |ratings| ==> r[k] == ratings[k];
  }

  /** Storing a new rating and recomputing its rated user's average keeps both tables
      consistent. */
  lemma CreateKeepsConsistent(users: seq<Accounts.User>, ratings: seq<Rating>, nextId: Id, row: Rating)
    requires RatingTableOk(ratings, nextId) && AveragesAgree(users, ratings) && RatedUsersExist(users, ratings)
    requires row.id == nextId && 1 <= row.stars <= 5 && !PairTaken(ratings, row.rater, row.ratedUser, -1)
    requires Accounts.UserIndex(users, row.ratedUser).Some?
    ensures var after := ratings + [row];
            var users' := Recount(users, after, {row.ratedUser});
            RatingTableOk(after, nextId + 1) && AveragesAgree(users', after) && RatedUsersExist(users', after)
  {
    var after := ratings + [row];
    var touched := {row.ratedUser};
    forall u ensures StarsTotal(after, u) == StarsTotal(ratings, u) + Contribution(row, u)
                  && RatingCount(after, u) == RatingCount(ratings, u) + Counted(row, u) {
      TotalsAppend(ratings, row, u);
    }
    AgreeAfterRecount(users, ratings, after, touched);
    AppendKeepsTableOk(ratings, nextId, row);
    forall k | 0 <= k < |after| ensures Accounts.UserIndex(Recount(users, after, touched), after[k].ratedUser).Some? {
      RecountKeepsLookups(users, after, touched, after[k].ratedUser);
      if k < |ratings| {
        assert after[k] == ratings[k];
      }
    }
  }

  lemma RemoveKeepsTableOk(ratings: seq<Rating>, nextId: Id, k: nat)
    requires RatingTableOk(ratings, nextId) && k < |ratings|
    ensures RatingTableOk(RemoveAt(ratings, k), nextId)
  {
    var r := RemoveAt(ratings, k);
    forall a, b | 0 <= a < |r| && 0 <= b < |r| && (r[a].id == r[b].id || (r[a].rater == r[b].rater && r[a].ratedUser == r[b].ratedUser))
      ensures a == b
    {
      var a', b' := if a < k then a else a + 1, if b < k then b else b + 1;
      assert r[a] == ratings[a'] && r[b] == ratings[b'];
    }
    forall a | 0 <= a < |r| ensures r[a].id < nextId && 1 <= r[a].stars <= 5 {
      assert r[a] == ratings[if a < k then a else a + 1];
    }
  }

  /** Deleting a rating and recomputing its rated user's average keeps both tables
      consistent. */
  lemma DeleteKeepsConsistent(users: seq<Accounts.User>, ratings: seq<Rating>, nextId: Id, k: nat)
    requires RatingTableOk(ratings, nextId) && AveragesAgree(users, ratings) && RatedUsersExist(users, ratings)
    requires k < |ratings|
    ensures var after := RemoveAt(ratings, k);
            var users' := Recount(users, after, {ratings[k].ratedUser});
            RatingTableOk(after, nextId) && AveragesAgree(users', after) && RatedUsersExist(users', after)
  {
    var after := RemoveAt(ratings, k);
    var touched := {ratings[k].ratedUser};
    forall u ensures StarsTotal(after, u) == StarsTotal(ratings, u) - Contribution(ratings[k], u)
                  && RatingCount(after, u) == RatingCount(ratings, u) - Counted(ratings[k], u) {
      TotalsRemove(ratings, k, u);
    }
    AgreeAfterRecount(users, ratings, after, touched);
    RemoveKeepsTableOk(ratings, nextId, k);
    forall a | 0 <= a < |after| ensures Accounts.UserIndex(Recount(users, after, touched), after[a].ratedUser).Some? {
      RecountKeepsLookups(users, after, touched, after[a].ratedUser);
      assert after[a] == ratings[if a < k then a else a + 1];
    }
  }

  /** A rewritten rating whose pair no other rating holds keeps the pairs unique. */
  lemma RewriteKeepsUniquePairs(ratings: seq<Rating>, k: nat, r: Rating)
    requires UniquePairs(ratings) && k < |ratings| && !PairTaken(ratings, r.rater, r.ratedUser, k)
    ensures UniquePairs(ratings[k := r])
  {
    var after := ratings[k := r];
    forall a, b | 0 <= a < |after| && 0 <= b < |after| && after[a].rater == after[b].rater && after[a].ratedUser == after[b].ratedUser
      ensures a == b
    {
      assert a != k ==> after[a] == ratings[a];
      assert b != k ==> after[b] == ratings[b];
    }
  }

  lemma RewriteKeepsTableOk(ratings: seq<Rating>, nextId: Id, k: nat, r: Rating)
    requires RatingTableOk(ratings, nextId) && k < |ratings| && r.id == ratings[k].id && 1 <= r.stars <= 5
    requires !PairTaken(ratings, r.rater, r.ratedUser, k)
    ensures RatingTableOk(ratings[k := r], nextId)
  {
    RewriteKeepsUniquePairs(ratings, k, r);
  }

  /** Rewriting a rating and recomputing both its former and its new rated user keeps both
      tables consistent. */
  lemma UpdateKeepsConsistent(users: seq<Accounts.User>, ratings: seq<Rating>, nextId: Id, k: nat, r: Rating)
    requires RatingTableOk(ratings, nextId) && AveragesAgree(users, ratings) && RatedUsersExist(users, ratings)
    requires k < |ratings| && r.id == ratings[k].id && 1 <= r.stars <= 5
    requires !PairTaken(ratings, r.rater, r.ratedUser, k)
    requires Accounts.UserIndex(users, r.ratedUser).Some?
    ensures var after := ratings[k := r];
            var users' := Recount(users, after, {ratings[k].ratedUser, r.ratedUser});
            RatingTableOk(after, nextId) && AveragesAgree(users', after) && RatedUsersExist(users', after)
  {
    var after := ratings[k := r];
    var touched := {ratings[k].ratedUser, r.ratedUser};
    forall u ensures StarsTotal(after, u) == StarsTotal(ratings, u) - Contribution(ratings[k], u) + Contribution(r, u)
                  && RatingCount(after, u) == RatingCount(ratings, u) - Counted(ratings[k], u) + Counted(r, u) {
      TotalsUpdate(ratings, k, r, u);
    }
    AgreeAfterRecount(users, ratings, after, touched);
    RewriteKeepsTableOk(ratings, nextId, k, r);
    forall a | 0 <= a < |after| ensures Accounts.UserIndex(Recount(users, after, touched), after[a].ratedUser).Some? {
      RecountKeepsLookups(users, after, touched, after[a].ratedUser);
    }
  }

  // ---------------------------------------------------------------------------
  // The store
  // ---------------------------------------------------------------------------

  class RatingStore {
    var ratings: seq<Rating>
    var nextId: Id

    ghost predicate Valid()
      reads this
    {
      RatingTableOk(ratings, nextId)
    }

    /** The rating table together with the user table. */
    ghost predicate Consistent(accounts: Accounts.AccountStore)
      reads this, accounts
    {
      Valid() && accounts.Valid() && AveragesAgree(accounts.users, ratings) && RatedUsersExist(accounts.users, ratings)
    }

    constructor ()
      ensures Valid() && ratings == []
    {
      ratings, nextId := [], 1;
    }

    /** `RatingListCreateView.get_queryset`: every rating, or those of one rated user,
        newest first. */
    function List(ratedUser: Option<Id>): (r: seq<Rating>)
      reads this
      ensures forall x :: x in r <==> x in ratings && (ratedUser.Some? ==> x.ratedUser == ratedUser.value)
      ensures forall i, j :: 0 <= i < j < |r| ==> r[i].createdAt >= r[j].createdAt
      ensures multiset(r) == multiset(Filter(ratings, RatedFilter(ratedUser)))
      ensures ratedUser.None? ==> multiset(r) == multiset(ratings)
    {
      var chosen := Filter(ratings, RatedFilter(ratedUser));
      assert ratedUser.None? ==> chosen == ratings by {
        if ratedUser.None? {
          FilterKeepsAll(ratings, RatedFilter(ratedUser));
        }
      }
      SortBySorted(chosen, NewerOrSame);
      var r := SortBy(chosen, NewerOrSame);
      assert forall x :: x in r <==> x in chosen by {
        forall x ensures x in r <==> x in chosen {
          assert x in r <==> x in multiset(r);
          assert x in chosen <==> x in multiset(chosen);
        }
      }
      r
    }

    /** `perform_create` and `Rating.save`: the rater is always the requester (the field is
        read-only), the stored row fires the rating notification, and the rated user's
        average is recomputed from all their ratings. */
    method Create(requester: Id, ratedUser: Id, stars: Option<int>, comment: string,
                  accounts: Accounts.AccountStore, inbox: Notifications.NotificationStore, now: Time)
      returns (st: Status)
      requires Consistent(accounts) && inbox.Valid()
      requires accounts.HasUser(requester)
      modifies this, accounts, inbox
      ensures Consistent(accounts) && inbox.Valid()
      ensures accounts.follows == old(accounts.follows) && accounts.codes == old(accounts.codes)
      ensures accounts.nextId == old(accounts.nextId)
      ensures ValidateStars(StarsOrDefault(stars)).Failure? || !old(accounts.HasUser(ratedUser)) ==>
                st == BadRequest && unchanged(this) && unchanged(accounts) && inbox.rows == old(inbox.rows)
      ensures ValidateStars(StarsOrDefault(stars)).Success? && old(accounts.HasUser(ratedUser))
              && PairTaken(old(ratings), requester, ratedUser, -1) ==>
                st == IntegrityRaised && unchanged(this) && unchanged(accounts) && inbox.rows == old(inbox.rows)
      ensures ValidateStars(StarsOrDefault(stars)).Success? && old(accounts.HasUser(ratedUser))
              && !PairTaken(old(ratings), requester, ratedUser, -1) ==>
                && st == Created
                && ratings == old(ratings) + [Rating(old(nextId), requester, ratedUser, StarsOrDefault(stars) as nat, comment, now)]
                && accounts.users == Recount(old(accounts.users), ratings, {ratedUser})
                && inbox.rows == old(inbox.rows) + [Notifications.Notification(old(inbox.nextId), Some(requester), ratedUser,
                     Notifications.RatingNote, Notifications.RatingText(old(accounts.UsernameOf(requester)), StarsOrDefault(stars) as nat),
                     None, false, now)]
    {
      var v := ValidateStars(StarsOrDefault(stars));
      if v.Failure? || !accounts.HasUser(ratedUser) {
        return BadRequest;
      }
      if PairTaken(ratings, requester, ratedUser, -1) {
        return IntegrityRaised;
      }
      var row := Rating(nextId, requester, ratedUser, v.value, comment, now);
      var after := ratings + [row];
      var raterName := accounts.UsernameOf(requester);
      CreateKeepsConsistent(accounts.users, ratings, nextId, row);
      ratings := after;
      nextId := nextId + 1;
      var _ := inbox.OnRatingSaved(requester, raterName, ratedUser, v.value, true, now);
      accounts.SetAverages(Recount(accounts.users, ratings, {ratedUser}));
      st := Created;
    }

    /** `RatingDetailView.perform_update`: the serializer validates first, then only the
        rater may save. Saving recomputes the average of the rating's new rated user and,
        when the rating moved to another user, of its former one. No notification is sent
        for an existing row. */
    method Update(requester: Id, pk: Id, ratedUser: Option<Id>, stars: Option<int>, comment: Option<string>,
                  accounts: Accounts.AccountStore)
      returns (st: Status)
      requires Consistent(accounts)
      modifies this, accounts
      ensures Consistent(accounts) && nextId == old(nextId)
      ensures accounts.follows == old(accounts.follows) && accounts.codes == old(accounts.codes)
      ensures accounts.nextId == old(accounts.nextId)
      ensures RatingIndex(old(ratings), pk).None? ==> st == NotFound && unchanged(this) && unchanged(accounts)
      ensures RatingIndex(old(ratings), pk).Some? && !UpdateInputsOk(old(accounts.users), ratedUser, stars) ==>
                st == BadRequest && unchanged(this) && unchanged(accounts)
      ensures RatingIndex(old(ratings), pk).Some? && UpdateInputsOk(old(accounts.users), ratedUser, stars)
              && old(ratings)[RatingIndex(old(ratings), pk).value].rater != requester ==>
                st == PermissionRaised && unchanged(this) && unchanged(accounts)
      ensures RatingIndex(old(ratings), pk).Some? && UpdateInputsOk(old(accounts.users), ratedUser, stars)
              && old(ratings)[RatingIndex(old(ratings), pk).value].rater == requester ==>
                var k := RatingIndex(old(ratings), pk).value;
                var r := Revised(old(ratings)[k], ratedUser, stars, comment);
                if PairTaken(old(ratings), requester, r.ratedUser, k) then
                  st == IntegrityRaised && unchanged(this) && unchanged(accounts)
                else
                  && st == Ok
                  && ratings == old(ratings)[k := r]
                  && accounts.users == Recount(old(accounts.users), ratings, {old(ratings)[k].ratedUser, r.ratedUser})
    {
      var found := RatingIndex(ratings, pk);
      if found.None? {
        return NotFound;
      }
      if !UpdateInputsOk(accounts.users, ratedUser, stars) {
        return BadRequest;
      }
      var k := found.value;
      if ratings[k].rater != requester {
        return PermissionRaised;
      }
      var r := Revised(ratings[k], ratedUser, stars, comment);
      if PairTaken(ratings, requester, r.ratedUser, k) {
        return IntegrityRaised;
      }
      Rewrite(k, r, accounts);
      st := Ok;
    }

    /** Stores the rewritten row at `k` and recounts its former and new rated users. */
    method Rewrite(k: nat, r: Rating, accounts: Accounts.AccountStore)
      requires Consistent(accounts)
      requires k < |ratings| && r.id == ratings[k].id && 1 <= r.stars <= 5
      requires !PairTaken(ratings, r.rater, r.ratedUser, k)
      requires Accounts.UserIndex(accounts.users, r.ratedUser).Some?
      modifies this, accounts
      ensures Consistent(accounts) && nextId == old(nextId)
      ensures accounts.follows == old(accounts.follows) && accounts.codes == old(accounts.codes)
      ensures accounts.nextId == old(accounts.nextId)
      ensures ratings == old(ratings)[k := r]
      ensures accounts.users == Recount(old(accounts.users), ratings, {old(ratings)[k].ratedUser, r.ratedUser})
    {
      var after := ratings[k := r];
      UpdateKeepsConsistent(accounts.users, ratings, nextId, k, r);
      var touched := {ratings[k].ratedUser, r.ratedUser};
      ratings := after;
      accounts.SetAverages(Recount(accounts.users, after, touched));
    }

    /** `RatingDetailView.perform_destroy`: only the rater may delete; the rated user's
        average is recomputed without the deleted rating. */
    method Delete(requester: Id, pk: Id, accounts: Accounts.AccountStore) returns (st: Status)
      requires Consistent(accounts)
      modifies this, accounts
      ensures Consistent(accounts) && nextId == old(nextId)
      ensures accounts.follows == old(accounts.follows) && accounts.codes == old(accounts.codes)
      ensures accounts.nextId == old(accounts.nextId)
      ensures RatingIndex(old(ratings), pk).None? ==> st == NotFound && unchanged(this) && unchanged(accounts)
      ensures RatingIndex(old(ratings), pk).Some? && old(ratings)[RatingIndex(old(ratings), pk).value].rater != requester ==>
                st == PermissionRaised && unchanged(this) && unchanged(accounts)
      ensures RatingIndex(old(ratings), pk).Some? && old(ratings)[RatingIndex(old(ratings), pk).value].rater == requester ==>
                var k := RatingIndex(old(ratings), pk).value;
                && st == NoContent
                && ratings == RemoveAt(old(ratings), k)
                && accounts.users == Recount(old(accounts.users), ratings, {old(ratings)[k].ratedUser})
    {
      var found := RatingIndex(ratings, pk);
      if found.None? {
        return NotFound;
      }
      var k := found.value;
      if ratings[k].rater != requester {
        return PermissionRaised;
      }
      var u := ratings[k].ratedUser;
      var after := RemoveAt(ratings, k);
      DeleteKeepsConsistent(accounts.users, ratings, nextId, k);
      ratings := after;
      accounts.SetAverages(Recount(accounts.users, after, {u}));
      st := NoContent;
    }
  }
}
