/** The accounts app: users, the follow graph, e-mail verification codes, the login gate,
    the explore-users filter, the suspension middleware and the profile-picture path. */
module Accounts {
  import opened Common
  import opened Tables
  import Notifications

  // ---------------------------------------------------------------------------
  // Records
  // ---------------------------------------------------------------------------

  /** `ACCOUNT_TYPES`; a new user is `normal`. */
  datatype AccountType = Normal | BusinessAccount | Premium

  const DefaultAccountType: AccountType := Normal

  function AccountTypeCode(t: AccountType): string {
    match t
    case Normal => "normal"
    case BusinessAccount => "business"
    case Premium => "premium"
  }

  /** The stored choice back to its account type; any other string is not a choice. */
  function ParseAccountType(s: string): (r: Option<AccountType>)
    ensures r.Some? ==> AccountTypeCode(r.value) == s
    ensures r.None? ==> forall t :: AccountTypeCode(t) != s
  {
    if s == "normal" then Some(Normal)
    else if s == "business" then Some(BusinessAccount)
    else if s == "premium" then Some(Premium)
    else None
  }

  /** A user, with the fields the views read and write. Blank or NULL text fields are "". */
  datatype User = User(
    id: Id,
    username: string,
    email: string,
    accountType: AccountType,
    isVerified: bool,
    isActive: bool,
    isSuspended: bool,
    suspendedUntil: Option<Time>,
    followersCount: nat,
    averageRating: real,
    country: string,
    region: string,
    city: string,
    businessName: string,
    businessCategory: string)

  /** The row `User.objects.get_or_create(email=email)` inserts: every other field at its
      default (`AbstractUser` makes a new user active). */
  function NewUser(id: Id, email: string): User {
    User(id, "", email, DefaultAccountType, false, true, false, None, 0, 0.0, "", "", "", "", "")
  }

  /** A directed (follower, following) pair. The model declares no uniqueness for it. */
  datatype FollowRow = FollowRow(follower: Id, following: Id)

  datatype VerificationCode = VerificationCode(user: Id, code: string, createdAt: Time, isUsed: bool)

  const CodeLifetime: int := 10 * SecondsPerMinute
  const MinCode: nat := 100000
  const MaxCode: nat := 999999
  const ExploreMinFollowers: nat := 20

  // ---------------------------------------------------------------------------
  // profile_upload_path
  // ---------------------------------------------------------------------------

  const ProfilesDir: string := "profiles/"

  /** `profile_upload_path(instance, filename)`. */
  function ProfileUploadPath(instance: User, filename: string): string {
    ProfilesDir + instance.username + "/" + filename
  }

  /** Reads a path of the form profiles/<username>/<filename> back into its two parts. */
  function SplitUploadPath(path: string): Option<(string, string)> {
    if |path| >= |ProfilesDir| && path[..|ProfilesDir|] == ProfilesDir then
      var rest := path[|ProfilesDir|..];
      match FindFirst(rest, (c: char) => c == '/')
      case None => None
      case Some(k) => Some((rest[..k], rest[k + 1..]))
    else None
  }

  /** The path is exactly the directory, the username, a slash and the file name: reading it
      back yields the same username and file name, whenever the username has no slash. */
  lemma UploadPathRoundTrip(instance: User, filename: string)
    requires forall i :: 0 <= i < |instance.username| ==> instance.username[i] != '/'
    ensures SplitUploadPath(ProfileUploadPath(instance, filename)) == Some((instance.username, filename))
  {
    var u := instance.username;
    var path := ProfileUploadPath(instance, filename);
    assert path[..|ProfilesDir|] == ProfilesDir;
    var rest := path[|ProfilesDir|..];
    assert rest == u + "/" + filename;
    var r := FindFirst(rest, (c: char) => c == '/');
    assert rest[|u|] == '/';
    assert forall i :: 0 <= i < |u| ==> rest[i] == u[i];
    assert r.Some? && r.value == |u|;
    assert rest[..|u|] == u;
    assert rest[|u| + 1..] == filename;
  }

  /** The path depends on the instance only through its username. */
  lemma UploadPathUsesOnlyUsername(a: User, b: User, filename: string)
    requires a.username == b.username
    ensures ProfileUploadPath(a, filename) == ProfileUploadPath(b, filename)
  {
  }

  // ---------------------------------------------------------------------------
  // Lookups and counts over the tables
  // ---------------------------------------------------------------------------

  /** `User.objects.filter(id=id).first()`. */
  function UserIndex(users: seq<User>, id: Id): (r: Option<nat>)
    ensures r.Some? ==> r.value < |users| && users[r.value].id == id
    ensures r.Some? ==> forall k :: 0 <= k < r.value ==> users[k].id != id
    ensures r.None? ==> forall i :: 0 <= i < |users| ==> users[i].id != id
  {
    FindFirst(users, (u: User) => u.id == id)
  }

  /** Two user tables with the same ids position by position answer every lookup alike. */
  lemma UserIndexSameIds(a: seq<User>, b: seq<User>, id: Id)
    requires |a| == |b| && forall i :: 0 <= i < |a| ==> a[i].id == b[i].id
    ensures UserIndex(a, id) == UserIndex(b, id)
  {
    var x, y := UserIndex(a, id), UserIndex(b, id);
    if x.Some? {
      assert b[x.value].id == id;
    }
  }

  /** `User.objects.get(email=email)`. */
  function EmailIndex(users: seq<User>, email: string): (r: Option<nat>)
    ensures r.Some? ==> r.value < |users| && users[r.value].email == email
    ensures r.None? ==> forall i :: 0 <= i < |users| ==> users[i].email != email
  {
    FindFirst(users, (u: User) => u.email == email)
  }

  /** The username of the user with this id, and "" when there is none. */
  function UsernameIn(users: seq<User>, id: Id): string {
    match UserIndex(users, id)
    case None => ""
    case Some(i) => users[i].username
  }

  /** `Follow.objects.filter(following=u).count()`. */
  function FollowerCount(follows: seq<FollowRow>, u: Id): nat {
    if follows == [] then 0
    else (if follows[0].following == u then 1 else 0) + FollowerCount(follows[1..], u)
  }

  /** What `Follow.objects.filter(follower=a, following=b).delete()` leaves. */
  function WithoutPair(follows: seq<FollowRow>, a: Id, b: Id): (r: seq<FollowRow>)
    ensures forall f :: f in r <==> f in follows && f != FollowRow(a, b)
  {
    if follows == [] then []
    else (if follows[0] == FollowRow(a, b) then [] else [follows[0]]) + WithoutPair(follows[1..], a, b)
  }

  ghost predicate NoDuplicatePairs(follows: seq<FollowRow>) {
    forall i, j :: 0 <= i < j < |follows| ==> follows[i] != follows[j]
  }

  lemma {:induction false} FollowerCountAppend(follows: seq<FollowRow>, row: FollowRow, u: Id)
    ensures FollowerCount(follows + [row], u) == FollowerCount(follows, u) + (if row.following == u then 1 else 0)
  {
    if follows != [] {
      assert (follows + [row])[1..] == follows[1..] + [row];
      FollowerCountAppend(follows[1..], row, u);
    }
  }

  lemma {:induction false} FollowerCountNone(follows: seq<FollowRow>, u: Id)
    requires forall i :: 0 <= i < |follows| ==> follows[i].following != u
    ensures FollowerCount(follows, u) == 0
  {
    if follows != [] {
      FollowerCountNone(follows[1..], u);
    }
  }

  /** Deleting a pair that occurs once lowers the followed user's count by one and leaves
      every other user's count alone. */
  lemma {:induction false} FollowerCountWithout(follows: seq<FollowRow>, a: Id, b: Id, u: Id)
    requires NoDuplicatePairs(follows)
    ensures FollowerCount(WithoutPair(follows, a, b), u) ==
            FollowerCount(follows, u) - (if u == b && FollowRow(a, b) in follows then 1 else 0)
  {
    if follows != [] {
      var t := follows[1..];
      assert NoDuplicatePairs(t) by {
        forall i, j | 0 <= i < j < |t| ensures t[i] != t[j] {
          assert t[i] == follows[i + 1] && t[j] == follows[j + 1];
        }
      }
      FollowerCountWithout(t, a, b, u);
      if follows[0] == FollowRow(a, b) {
        assert WithoutPair(follows, a, b) == WithoutPair(t, a, b);
        assert FollowRow(a, b) !in t by {
          forall k | 0 <= k < |t| ensures t[k] != FollowRow(a, b) {
            assert t[k] == follows[k + 1];
          }
        }
      } else {
        var r := [follows[0]] + WithoutPair(t, a, b);
        assert r[1..] == WithoutPair(t, a, b);
        assert (FollowRow(a, b) in follows) == (FollowRow(a, b) in t);
      }
    }
  }

  lemma {:induction false} WithoutPairNoDuplicates(follows: seq<FollowRow>, a: Id, b: Id)
    requires NoDuplicatePairs(follows)
    ensures NoDuplicatePairs(WithoutPair(follows, a, b))
  {
    if follows != [] {
      var t := follows[1..];
      assert NoDuplicatePairs(t) by {
        forall i, j | 0 <= i < j < |t| ensures t[i] != t[j] {
          assert t[i] == follows[i + 1] && t[j] == follows[j + 1];
        }
      }
      WithoutPairNoDuplicates(t, a, b);
      var rest := WithoutPair(t, a, b);
      if follows[0] != FollowRow(a, b) {
        var r := [follows[0]] + rest;
        assert follows[0] !in t by {
          forall k | 0 <= k < |t| ensures t[k] != follows[0] {
            assert t[k] == follows[k + 1];
          }
        }
        forall i, j | 0 <= i < j < |r| ensures r[i] != r[j] {
          assert r[j] == rest[j - 1];
          if i > 0 { assert r[i] == rest[i - 1]; }
        }
      }
    }
  }

  // ---------------------------------------------------------------------------
  // Verification codes (VerifyEmailView)
  // ---------------------------------------------------------------------------

  /** The row matches `filter(user=user, code=code, is_used=False)`. */
  predicate Usable(c: VerificationCode, user: Id, code: string) {
    c.user == user && c.code == code && !c.isUsed
  }

  /** `.latest("created_at")` over the usable codes: the position of one with the greatest
      creation time (the last one stored among equals), or None when there is none. */
  function LatestUsableCode(codes: seq<VerificationCode>, user: Id, code: string): (r: Option<nat>)
    ensures r.Some? ==> r.value < |codes| && Usable(codes[r.value], user, code)
    ensures r.Some? ==> forall k :: 0 <= k < |codes| && Usable(codes[k], user, code) ==>
                          codes[k].createdAt <= codes[r.value].createdAt
    ensures r.None? ==> forall k :: 0 <= k < |codes| ==> !Usable(codes[k], user, code)
  {
    if codes == [] then None
    else
      var n := |codes| - 1;
      var rest := LatestUsableCode(codes[..n], user, code);
      assert forall k :: 0 <= k < n ==> codes[..n][k] == codes[k];
      if Usable(codes[n], user, code) && (rest.None? || codes[rest.value].createdAt <= codes[n].createdAt)
      then Some(n)
      else rest
  }

  datatype VerifyOutcome =
    | VerifyMissingFields
    | VerifyUnknownUser
    | VerifyNoCode
    | VerifyExpired
    | Verified(userIndex: nat, codeIndex: nat)

  /** The checks of `VerifyEmailView.post`, in their order. */
  function DecideVerify(users: seq<User>, codes: seq<VerificationCode>, email: string, code: string, now: Time)
    : (r: VerifyOutcome)
    ensures r == VerifyMissingFields <==> email == "" || code == ""
    ensures r == VerifyUnknownUser <==> email != "" && code != "" && EmailIndex(users, email).None?
    ensures r.Verified? ==>
              && r.userIndex < |users| && r.codeIndex < |codes|
              && users[r.userIndex].email == email
              && Usable(codes[r.codeIndex], users[r.userIndex].id, code)
              && now <= codes[r.codeIndex].createdAt + CodeLifetime
    ensures r.Verified? ==> EmailIndex(users, email) == Some(r.userIndex)
                            && LatestUsableCode(codes, users[r.userIndex].id, code) == Some(r.codeIndex)
    ensures r == VerifyNoCode <==>
              && email != "" && code != "" && EmailIndex(users, email).Some?
              && LatestUsableCode(codes, users[EmailIndex(users, email).value].id, code).None?
    ensures r == VerifyExpired <==>
              && email != "" && code != "" && EmailIndex(users, email).Some?
              && var latest := LatestUsableCode(codes, users[EmailIndex(users, email).value].id, code);
                 latest.Some? && now > codes[latest.value].createdAt + CodeLifetime
  {
    if email == "" || code == "" then VerifyMissingFields
    else match EmailIndex(users, email)
      case None => VerifyUnknownUser
      case Some(i) =>
        match LatestUsableCode(codes, users[i].id, code)
        case None => VerifyNoCode
        case Some(k) =>
          if now > codes[k].createdAt + CodeLifetime then VerifyExpired else Verified(i, k)
  }

  function VerifyStatus(r: VerifyOutcome): Status {
    match r
    case VerifyMissingFields => BadRequest
    case VerifyUnknownUser => NotFound
    case VerifyNoCode => BadRequest
    case VerifyExpired => BadRequest
    case Verified(_, _) => Ok
  }

  ghost predicate UniqueEmails(users: seq<User>) {
    forall i, j :: 0 <= i < |users| && 0 <= j < |users| && users[i].email == users[j].email ==> i == j
  }

  /** "Latest wins" never refuses a good code: verification succeeds exactly when the user
      holds some unused code with that value that is at most ten minutes old. An older
      matching code expires before the latest one does. */
  lemma VerifyAcceptsAnyFreshCode(users: seq<User>, codes: seq<VerificationCode>, email: string,
                                  code: string, now: Time, i: nat, k: nat)
    requires UniqueEmails(users)
    requires email != "" && code != ""
    requires i < |users| && users[i].email == email
    requires k < |codes| && Usable(codes[k], users[i].id, code)
    requires now <= codes[k].createdAt + CodeLifetime
    ensures DecideVerify(users, codes, email, code, now).Verified?
  {
    var e := EmailIndex(users, email);
    assert e == Some(i);
    var l := LatestUsableCode(codes, users[i].id, code);
    assert codes[k].createdAt <= codes[l.value].createdAt;
  }

  // ---------------------------------------------------------------------------
  // LoginView
  // ---------------------------------------------------------------------------

  datatype LoginOutcome = LoginMissingFields | BadCredentials | NotVerified | LoggedIn(userIndex: nat)

  /** The checks of `LoginView.post`, in their order. The password hash is not modelled:
      `checkPassword` stands for `user.check_password`. */
  function DecideLogin(users: seq<User>, email: string, password: string, checkPassword: (User, string) -> bool)
    : (r: LoginOutcome)
    ensures r == LoginMissingFields <==> email == "" || password == ""
    ensures r.LoggedIn? ==> r.userIndex < |users| && users[r.userIndex].email == email
                            && checkPassword(users[r.userIndex], password) && users[r.userIndex].isVerified
    ensures r == NotVerified ==>
              exists i :: (0 <= i < |users| && users[i].email == email
                           && checkPassword(users[i], password) && !users[i].isVerified)
    ensures email != "" && password != "" && EmailIndex(users, email).None? ==> r == BadCredentials
  {
    if email == "" || password == "" then LoginMissingFields
    else match EmailIndex(users, email)
      case None => BadCredentials
      case Some(i) =>
        if !checkPassword(users[i], password) then BadCredentials
        else if !users[i].isVerified then NotVerified
        else LoggedIn(i)
  }

  const InvalidCredentialsMessage: string := "Invalid email or password"

  /** Status and error text of each rejection; tokens are not modelled. */
  function LoginResponse(r: LoginOutcome): (Status, string) {
    match r
    case LoginMissingFields => (BadRequest, "Email and password are required")
    case BadCredentials => (Unauthorized, InvalidCredentialsMessage)
    case NotVerified => (Unauthorized, "Please verify your email before logging in.")
    case LoggedIn(_) => (Ok, "Login successful")
  }

  /** An unknown e-mail and a wrong password are indistinguishable to the client, while an
      unverified account is only reported once the password is right. With unique e-mails,
      a verified user with the right password always gets in. */
  lemma LoginRejections(users: seq<User>, email: string, password: string,
                        checkPassword: (User, string) -> bool, i: nat)
    requires UniqueEmails(users) && email != "" && password != ""
    requires i < |users| && users[i].email == email
    ensures !checkPassword(users[i], password) ==>
              LoginResponse(DecideLogin(users, email, password, checkPassword)) == (Unauthorized, InvalidCredentialsMessage)
    ensures checkPassword(users[i], password) && !users[i].isVerified ==>
              DecideLogin(users, email, password, checkPassword) == NotVerified
    ensures checkPassword(users[i], password) && users[i].isVerified ==>
              DecideLogin(users, email, password, checkPassword) == LoggedIn(i)
  {
    assert EmailIndex(users, email) == Some(i);
  }

  // ---------------------------------------------------------------------------
  // ExploreView
  // ---------------------------------------------------------------------------

  predicate IsBusinessLike(t: AccountType) { t == BusinessAccount || t == Premium }

  /** A filter value that is empty (or absent) does not filter. */
  predicate MatchesIfGiven(field: string, value: string) {
    value == "" || IContains(field, value)
  }

  predicate ExploreMatch(u: User, q: string, country: string, region: string, city: string, category: string) {
    && IsBusinessLike(u.accountType)
    && u.followersCount >= ExploreMinFollowers
    && (q == "" || IContains(u.username, q) || IContains(u.businessName, q))
    && MatchesIfGiven(u.country, country)
    && MatchesIfGiven(u.region, region)
    && MatchesIfGiven(u.city, city)
    && MatchesIfGiven(u.businessCategory, category)
  }

  /** `ExploreView.get`: business and premium users with at least 20 followers, narrowed by
      each non-empty parameter (`q` against username or business name). */
  function ExploreUsers(users: seq<User>, q: string, country: string, region: string, city: string, category: string)
    : (r: seq<User>)
    ensures multiset(r) <= multiset(users)
    ensures forall u :: u in r ==>
              && (u.accountType == BusinessAccount || u.accountType == Premium)
              && u.followersCount >= 20
              && (q != "" ==> IContains(u.username, q) || IContains(u.businessName, q))
              && (country != "" ==> IContains(u.country, country))
              && (region != "" ==> IContains(u.region, region))
              && (city != "" ==> IContains(u.city, city))
              && (category != "" ==> IContains(u.businessCategory, category))
    ensures forall u :: u in users && ExploreMatch(u, q, country, region, city, category) ==> u in r
  {
    Filter(users, (u: User) => ExploreMatch(u, q, country, region, city, category))
  }

  // ---------------------------------------------------------------------------
  // UserSuspensionMiddleware
  // ---------------------------------------------------------------------------

  const BlockedMessage: string := "Your account has been blocked by Disbod Admin."

  /** What the middleware does with one request. `Proceed` carries the user as the unseen
      helpers `unsuspend` and `downgrade_if_expired` left it. */
  datatype Gate =
    | Anonymous                   // forwarded, nothing checked
    | SuspendedUntil(until: Time) // 403, not forwarded
    | Blocked                     // 403, not forwarded
    | Proceed(user: User)         // forwarded

  predicate Forwarded(g: Gate) { g.Anonymous? || g.Proceed? }

  function GateStatus(g: Gate): Option<Status> {
    if Forwarded(g) then None else Some(Forbidden)
  }

  /** `UserSuspensionMiddleware.__call__`. `user` is None for a request without an
      authenticated user. */
  function SuspensionGate(user: Option<User>, now: Time, unsuspend: User -> User, downgrade: User -> User)
    : (g: Gate)
    ensures user.None? <==> g == Anonymous
    ensures g.SuspendedUntil? <==>
              user.Some? && user.value.isSuspended && user.value.suspendedUntil.Some?
              && now <= user.value.suspendedUntil.value
    ensures g.SuspendedUntil? ==> g.until == user.value.suspendedUntil.value
    ensures user.Some? && !(user.value.isSuspended && user.value.suspendedUntil.Some?) ==>
              g == (if user.value.isActive then Proceed(downgrade(user.value)) else Blocked)
    ensures user.Some? && user.value.isSuspended && user.value.suspendedUntil.Some?
            && now > user.value.suspendedUntil.value ==>
              var u := unsuspend(user.value);
              g == (if u.isActive then Proceed(downgrade(u)) else Blocked)
  {
    match user
    case None => Anonymous
    case Some(u) =>
      if u.isSuspended && u.suspendedUntil.Some? && now <= u.suspendedUntil.value then
        SuspendedUntil(u.suspendedUntil.value)
      else
        var v := if u.isSuspended && u.suspendedUntil.Some? then unsuspend(u) else u;
        if !v.isActive then Blocked else Proceed(downgrade(v))
  }

  /** The user reaches the view only if it is anonymous or passes both checks, and only a
      user that passes both is downgraded. */
  lemma GateForwardsOnlyCheckedUsers(user: Option<User>, now: Time, unsuspend: User -> User, downgrade: User -> User)
    ensures var g := SuspensionGate(user, now, unsuspend, downgrade);
            Forwarded(g) ==> user.None? || exists v: User :: v.isActive && g == Proceed(downgrade(v))
  {
    var g := SuspensionGate(user, now, unsuspend, downgrade);
    if user.Some? && g.Proceed? {
      var u := user.value;
      var v := if u.isSuspended && u.suspendedUntil.Some? then unsuspend(u) else u;
      assert v.isActive && g == Proceed(downgrade(v));
    }
  }

  // ---------------------------------------------------------------------------
  // Integrity of the tables
  // ---------------------------------------------------------------------------

  /** Some stored user already has this username (`AbstractUser.username` is unique). */
  predicate UsernameTaken(users: seq<User>, name: string) {
    exists i :: 0 <= i < |users| && users[i].username == name
  }

  /** `get_or_create` stores a new user with the empty username, so once one such user
      exists, every later registration of a new e-mail collides on the username. */
  lemma NewUserBlocksNextRegistration(users: seq<User>, id: Id, email: string, laterId: Id, laterEmail: string)
    ensures UsernameTaken(users + [NewUser(id, email)], NewUser(laterId, laterEmail).username)
  {
    assert (users + [NewUser(id, email)])[|users|].username == "";
  }

  ghost predicate UniqueUserIds(users: seq<User>) {
    forall i, j :: 0 <= i < |users| && 0 <= j < |users| && users[i].id == users[j].id ==> i == j
  }

  /** Ids below the counter, and no two users sharing an id, an e-mail or a non-empty
      business name. */
  ghost predicate UserTableOk(users: seq<User>, nextId: Id) {
    && (forall i :: 0 <= i < |users| ==> users[i].id < nextId)
    && UniqueUserIds(users)
    && UniqueEmails(users)
    && (forall i, j :: (0 <= i < |users| && 0 <= j < |users| && users[i].businessName != ""
                        && users[i].businessName == users[j].businessName) ==> i == j)
  }

  /** Both ends of every follow are existing ids, and no pair is stored twice. */
  ghost predicate FollowTableOk(follows: seq<FollowRow>, nextId: Id) {
    && (forall i :: 0 <= i < |follows| ==> follows[i].follower < nextId && follows[i].following < nextId)
    && NoDuplicatePairs(follows)
  }

  /** Every stored `followers_count` equals the number of follow rows pointing at the user. */
  ghost predicate CountsAgree(users: seq<User>, follows: seq<FollowRow>) {
    forall i :: 0 <= i < |users| ==> users[i].followersCount == FollowerCount(follows, users[i].id)
  }

  ghost predicate CodesOk(codes: seq<VerificationCode>, nextId: Id) {
    forall i :: 0 <= i < |codes| ==> codes[i].user < nextId
  }

  /** Changing anything but the unique columns of one user keeps the user table's constraints. */
  lemma UserTableOkUpdate(users: seq<User>, nextId: Id, i: nat, u: User)
    requires UserTableOk(users, nextId) && i < |users|
    requires u.id == users[i].id && u.email == users[i].email
    requires u.businessName == users[i].businessName
    ensures UserTableOk(users[i := u], nextId)
  {
  }

  /** Rewriting only `average_rating` columns keeps every user-table constraint. */
  lemma AveragesOnlyKeepTables(users: seq<User>, updated: seq<User>, follows: seq<FollowRow>, nextId: Id)
    requires UserTableOk(users, nextId) && CountsAgree(users, follows)
    requires |updated| == |users|
    requires forall i :: 0 <= i < |users| ==> updated[i] == users[i].(averageRating := updated[i].averageRating)
    ensures UserTableOk(updated, nextId) && CountsAgree(updated, follows)
  {
    assert forall i :: 0 <= i < |users| ==> updated[i].id == users[i].id && updated[i].email == users[i].email
                                            && updated[i].businessName == users[i].businessName
                                            && updated[i].followersCount == users[i].followersCount;
  }

  /** Registering a fresh e-mail keeps every table constraint, and the new user has no
      followers yet. */
  lemma AddUserOk(users: seq<User>, follows: seq<FollowRow>, codes: seq<VerificationCode>, nextId: Id, email: string)
    requires UserTableOk(users, nextId) && FollowTableOk(follows, nextId)
    requires CountsAgree(users, follows) && CodesOk(codes, nextId)
    requires EmailIndex(users, email).None?
    ensures var us := users + [NewUser(nextId, email)];
            UserTableOk(us, nextId + 1) && FollowTableOk(follows, nextId + 1)
            && CountsAgree(us, follows) && CodesOk(codes, nextId + 1)
  {
    var us := users + [NewUser(nextId, email)];
    AppendUserKeepsTable(users, nextId, NewUser(nextId, email));
    FollowerCountNone(follows, nextId);
    assert forall i :: 0 <= i < |users| ==> us[i] == users[i];
    assert CountsAgree(us, follows);
  }

  /** A user with a fresh id and e-mail and no business name keeps the user table valid. */
  lemma AppendUserKeepsTable(users: seq<User>, nextId: Id, u: User)
    requires UserTableOk(users, nextId) && u.id == nextId && u.businessName == ""
    requires EmailIndex(users, u.email).None?
    ensures UserTableOk(users + [u], nextId + 1)
  {
    var us := users + [u];
    assert forall i :: 0 <= i < |users| ==> us[i] == users[i];
    assert UniqueUserIds(us) by {
      forall i, j | 0 <= i < |us| && 0 <= j < |us| && us[i].id == us[j].id ensures i == j {
        assert i < |users| ==> us[i].id < nextId;
        assert j < |users| ==> us[j].id < nextId;
      }
    }
    assert UniqueEmails(us) by {
      forall i, j | 0 <= i < |us| && 0 <= j < |us| && us[i].email == us[j].email ensures i == j {
        assert i < |users| ==> us[i].email != u.email;
        assert j < |users| ==> us[j].email != u.email;
      }
    }
  }

  lemma CountsAfterFollow(users: seq<User>, follows: seq<FollowRow>, a: Id, b: Id, i: nat)
    requires CountsAgree(users, follows) && UniqueUserIds(users)
    requires i < |users| && users[i].id == b
    ensures var f := follows + [FollowRow(a, b)];
            CountsAgree(users[i := users[i].(followersCount := FollowerCount(f, b))], f)
            && FollowerCount(f, b) == users[i].followersCount + 1
  {
    var f := follows + [FollowRow(a, b)];
    forall j | 0 <= j < |users|
      ensures FollowerCount(f, users[j].id) == FollowerCount(follows, users[j].id) + (if users[j].id == b then 1 else 0)
    {
      FollowerCountAppend(follows, FollowRow(a, b), users[j].id);
    }
  }

  lemma CountsAfterUnfollow(users: seq<User>, follows: seq<FollowRow>, a: Id, b: Id, i: nat)
    requires CountsAgree(users, follows) && UniqueUserIds(users) && NoDuplicatePairs(follows)
    requires i < |users| && users[i].id == b && FollowRow(a, b) in follows
    ensures var f := WithoutPair(follows, a, b);
            CountsAgree(users[i := users[i].(followersCount := FollowerCount(f, b))], f)
            && FollowerCount(f, b) + 1 == users[i].followersCount
  {
    var f := WithoutPair(follows, a, b);
    forall j | 0 <= j < |users|
      ensures FollowerCount(f, users[j].id) == FollowerCount(follows, users[j].id) - (if users[j].id == b then 1 else 0)
    {
      FollowerCountWithout(follows, a, b, users[j].id);
    }
  }

  // ---------------------------------------------------------------------------
  // The store
  // ---------------------------------------------------------------------------

  class AccountStore {
    var users: seq<User>
    var follows: seq<FollowRow>
    var codes: seq<VerificationCode>
    var nextId: Id

    ghost predicate Valid()
      reads this
    {
      UserTableOk(users, nextId) && FollowTableOk(follows, nextId) && CountsAgree(users, follows) && CodesOk(codes, nextId)
    }

    constructor ()
      ensures Valid() && users == [] && follows == [] && codes == []
    {
      users, follows, codes, nextId := [], [], [], 1;
    }

    function HasUser(id: Id): bool
      reads this
    {
      UserIndex(users, id).Some?
    }

    function UsernameOf(id: Id): string
      reads this
    {
      UsernameIn(users, id)
    }

    /** `RegisterView.post`. `code` is the value `random.randint(100000, 999999)` drew:
        the e-mail's user is reused or created, and one fresh unused code is stored for it. */
    method Register(email: string, code: nat, now: Time) returns (st: Status)
      requires Valid()
      requires MinCode <= code <= MaxCode
      modifies this
      ensures Valid() && follows == old(follows)
      ensures email == "" ==> st == BadRequest && unchanged(this)
      ensures email != "" && EmailIndex(old(users), email).Some? ==>
                var i := EmailIndex(old(users), email).value;
                st == Created && users == old(users) && nextId == old(nextId)
                && codes == old(codes) + [VerificationCode(old(users)[i].id, NatToString(code), now, false)]
      ensures email != "" && EmailIndex(old(users), email).None? && UsernameTaken(old(users), NewUser(old(nextId), email).username) ==>
                st == IntegrityRaised && unchanged(this)
      ensures email != "" && EmailIndex(old(users), email).None? && !UsernameTaken(old(users), NewUser(old(nextId), email).username) ==>
                st == Created && users == old(users) + [NewUser(old(nextId), email)]
                && codes == old(codes) + [VerificationCode(old(nextId), NatToString(code), now, false)]
      ensures st == Created ==> |codes| == |old(codes)| + 1 && |codes[|codes| - 1].code| == 6
      ensures st == Created ==> MinCode <= DigitsValue(codes[|codes| - 1].code) <= MaxCode
    {
      SixDigitCode(code);
      NatToStringRoundTrip(code);
      if email == "" {
        return BadRequest;
      }
      var found := EmailIndex(users, email);
      var uid: Id;
      if found.Some? {
        uid := users[found.value].id;
      } else {
        if UsernameTaken(users, NewUser(nextId, email).username) {
          return IntegrityRaised;
        }
        uid := nextId;
        AddUserOk(users, follows, codes, nextId, email);
        users := users + [NewUser(uid, email)];
        nextId := nextId + 1;
      }
      codes := codes + [VerificationCode(uid, NatToString(code), now, false)];
      st := Created;
    }

    /** `VerifyEmailView.post`: on success the latest matching code is marked used and the
        user becomes verified and active. */
    method VerifyEmail(email: string, code: string, now: Time) returns (st: Status)
      requires Valid()
      modifies this
      ensures Valid() && follows == old(follows) && nextId == old(nextId)
      ensures st == VerifyStatus(DecideVerify(old(users), old(codes), email, code, now))
      ensures !DecideVerify(old(users), old(codes), email, code, now).Verified? ==> unchanged(this)
      ensures DecideVerify(old(users), old(codes), email, code, now).Verified? ==>
                var r := DecideVerify(old(users), old(codes), email, code, now);
                var i, k := r.userIndex, r.codeIndex;
                && users == old(users)[i := old(users)[i].(isVerified := true, isActive := true)]
                && codes == old(codes)[k := old(codes)[k].(isUsed := true)]
                && LatestUsableCode(codes, users[i].id, code) != Some(k)
    {
      var r := DecideVerify(users, codes, email, code, now);
      st := VerifyStatus(r);
      if r.Verified? {
        var i, k := r.userIndex, r.codeIndex;
        UserTableOkUpdate(users, nextId, i, users[i].(isVerified := true, isActive := true));
        codes := codes[k := codes[k].(isUsed := true)];
        users := users[i := users[i].(isVerified := true, isActive := true)];
      }
    }

    /** `FollowUserView.post`, with the follow notification its Follow row triggers. */
    method FollowUser(requester: Id, target: Id, inbox: Notifications.NotificationStore, now: Time)
      returns (st: Status)
      requires Valid() && inbox.Valid()
      requires HasUser(requester)
      modifies this, inbox
      ensures Valid() && inbox.Valid() && codes == old(codes) && nextId == old(nextId)
      ensures UserIndex(old(users), target).None? ==>
                st == NotFound && unchanged(this) && inbox.rows == old(inbox.rows)
      ensures UserIndex(old(users), target).Some? && requester == target ==>
                st == BadRequest && unchanged(this) && inbox.rows == old(inbox.rows)
      ensures UserIndex(old(users), target).Some? && requester != target && FollowRow(requester, target) in old(follows) ==>
                st == BadRequest && unchanged(this) && inbox.rows == old(inbox.rows)
      ensures UserIndex(old(users), target).Some? && requester != target && FollowRow(requester, target) !in old(follows) ==>
                var i := UserIndex(old(users), target).value;
                && st == Created
                && follows == old(follows) + [FollowRow(requester, target)]
                && users == old(users)[i := old(users)[i].(followersCount := FollowerCount(follows, target))]
                && users[i].followersCount == old(users)[i].followersCount + 1
                && inbox.rows == old(inbox.rows) + [Notifications.Notification(old(inbox.nextId), Some(requester), target,
                     Notifications.FollowNote, Notifications.FollowText(old(UsernameOf(requester))), None, false, now)]
    {
      var t := UserIndex(users, target);
      if t.None? {
        return NotFound;
      }
      if requester == target {
        return BadRequest;
      }
      if FollowRow(requester, target) in follows {
        return BadRequest;
      }
      var i := t.value;
      var row := FollowRow(requester, target);
      var name := UsernameOf(requester);
      var r := UserIndex(users, requester);
      CountsAfterFollow(users, follows, requester, target, i);
      UserTableOkUpdate(users, nextId, i, users[i].(followersCount := FollowerCount(follows + [row], target)));
      assert FollowTableOk(follows + [row], nextId) by {
        assert users[r.value].id == requester;
      }
      follows := follows + [row];
      users := users[i := users[i].(followersCount := FollowerCount(follows, target))];
      var _ := inbox.OnFollowSaved(requester, name, target, true, now);
      st := Created;
    }

    /** `UnfollowUserView.delete`. */
    method UnfollowUser(requester: Id, target: Id) returns (st: Status)
      requires Valid()
      requires HasUser(requester)
      modifies this
      ensures Valid() && codes == old(codes) && nextId == old(nextId)
      ensures UserIndex(old(users), target).None? ==> st == NotFound && unchanged(this)
      ensures UserIndex(old(users), target).Some? && FollowRow(requester, target) !in old(follows) ==>
                st == BadRequest && unchanged(this)
      ensures UserIndex(old(users), target).Some? && FollowRow(requester, target) in old(follows) ==>
                var i := UserIndex(old(users), target).value;
                && st == Ok
                && follows == WithoutPair(old(follows), requester, target)
                && FollowRow(requester, target) !in follows
                && users == old(users)[i := old(users)[i].(followersCount := FollowerCount(follows, target))]
                && users[i].followersCount + 1 == old(users)[i].followersCount
    {
      var t := UserIndex(users, target);
      if t.None? {
        return NotFound;
      }
      if FollowRow(requester, target) !in follows {
        return BadRequest;
      }
      var i := t.value;
      var f := WithoutPair(follows, requester, target);
      WithoutPairNoDuplicates(follows, requester, target);
      assert FollowTableOk(f, nextId) by {
        forall k | 0 <= k < |f| ensures f[k].follower < nextId && f[k].following < nextId {
          assert f[k] in follows;
        }
      }
      CountsAfterUnfollow(users, follows, requester, target, i);
      UserTableOkUpdate(users, nextId, i, users[i].(followersCount := FollowerCount(f, target)));
      follows := f;
      users := users[i := users[i].(followersCount := FollowerCount(follows, target))];
      st := Ok;
    }

    /** `rated_user.save(update_fields=['average_rating'])`, for any number of users at
        once: only `average_rating` columns are written. */
    method SetAverages(updated: seq<User>)
      requires Valid()
      requires |updated| == |users|
      requires forall i :: 0 <= i < |users| ==> updated[i] == users[i].(averageRating := updated[i].averageRating)
      modifies this
      ensures Valid() && follows == old(follows) && codes == old(codes) && nextId == old(nextId)
      ensures users == updated
    {
      AveragesOnlyKeepTables(users, updated, follows, nextId);
      users := updated;
    }
  }
}
