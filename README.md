# disbod — a verified model of the social-commerce backend

disbod is a Django backend with accounts, a follow graph, businesses, products,
chats, notifications, ratings and an "explore" ranking layer. This Dafny project models
the rules under the request handlers. Each app's tables are sequences of records held by
a `class` (`AccountStore`, `BusinessStore`, `ProductStore`, `ChatStore`,
`NotificationStore`, `RatingStore`). Each view that writes is a method. Its `ensures`
gives the response status and the whole new state for every branch of the handler,
and keeps the table invariants the models declare: unique keys, one-to-one links,
cascades and counters. Read-only views are functions. These include the explore search,
the suggested, trending and top-rated lists, and the list views of each app. Their
contracts give which rows appear and in what order.

Modules and files:

- `common.dfy` (`Common`): ids, times, `Option`/`Result`, response statuses, and the
  string operations the views use. These are `icontains`, `str.strip`, slicing, `join`,
  `str(n)` and a code-point order.
- `tables.dfy` (`Tables`): `.filter`, `.count`, `.first`, row deletion, and
  uniqueness-of-key lemmas.
- `sorting.dfy` (`Sorting`): an insertion sort used for `order_by`.
- `accounts.dfy` (`Accounts`):
  - register, e-mail verification, the login decision, follow/unfollow with recounted
    `followers_count`, and the explore-users filter;
  - the suspension middleware and `profile_upload_path`.
- `notifications.dfy` (`Notifications`): the three `post_save` handlers and their
  texts, and the receiver-only list, mark-read and clear views.
- `ratings.dfy` (`Ratings`): `validate_stars`, one rating per pair, and rater-only edit
  and delete. It proves that every stored `average_rating` equals the mean of the stars
  received.
- `businesses.dfy` (`Businesses`): one business per owner, unique name and slug, the
  slug set once, and the verification-request workflow.
- `products.dfy` (`Products`): categories, products and view records, owner-guarded
  writes, and the category → product → view cascade.
- `chats.dfy` (`Chats`): conversation reuse, receiver selection, message order,
  `last_message` and the conversation title.
- `explore.dfy` (`Explore`): `FeaturedBusiness.is_active`, the unified search, and the
  suggested, trending and top-rated querysets.

The views read or write some fields that accounts/models.py, business/models.py and
`EmailVerificationCode` do not declare:

- `User.followers_count`, `average_rating`, `is_verified`, `suspended_until` and
  `business_category`;
- `Business.country`, `region` and `city`;
- `EmailVerificationCode.is_used`.

The model gives the records the fields the views use and follows the views.

In these places the model follows the code:

- **Suggested businesses.** Owners of type business *or premium* qualify. "Featured"
  means the business has any `FeaturedBusiness` row, active or not. The list is
  paginated by 12. Featured businesses are ordered among themselves by the
  join-multiplied `Count('featured')` before followers (see Findings).
- **Top-rated businesses.** They are ordered by average and then followers only, with
  no `created_at` tie-break. Where a NULL average sorts is left to the database.
- **Trending `days` parameter.** A non-numeric value raises in the code; it does not
  fall back to 7. The model takes `days` as an integer.

## Model

| member | source | states |
|---|---|---|
| Accounts.ParseAccountType | accounts/models.py:6-10 | a stored string is an account type exactly when it is one of `normal`, `business`, `premium`, and it reads back to that type |
| Accounts.UploadPathRoundTrip | accounts/models.py:20-21 | the upload path is "profiles/", the username, "/" and the file name: splitting it after the directory gives back exactly the username and the file name |
| Accounts.UploadPathUsesOnlyUsername | accounts/models.py:21 | two users with the same username get the same path for a file |
| Accounts.UserIndex | accounts/views.py:180 | `filter(id=...).first()`: the first user with the id, or none exactly when no user has it |
| Accounts.EmailIndex | accounts/views.py:60 | a user with that e-mail, or none exactly when no user has it |
| Accounts.WithoutPair | accounts/views.py:204-208 | deleting the filtered follow rows keeps every row except the pair (requester, target) |
| Accounts.FollowerCountAppend | accounts/views.py:190-191 | a new follow row raises the count of its followed user by one and no other count |
| Accounts.FollowerCountWithout | accounts/views.py:208-209 | removing a pair stored once lowers the followed user's count by exactly one and no other count |
| Accounts.WithoutPairNoDuplicates | accounts/views.py:187-188 | unfollowing keeps "no pair is stored twice" |
| Accounts.LatestUsableCode | accounts/views.py:67-70 | `.filter(user, code, is_used=False).latest("created_at")`: an unused matching code with no later one, or none exactly when no unused matching code exists |
| Accounts.DecideVerify | accounts/views.py:53-83 | missing fields exactly when e-mail or code is empty; unknown user exactly when no user has the e-mail; no code exactly when that user has no unused matching code; expired exactly when the latest such code is over ten minutes old; success names that user and that latest code |
| Accounts.VerifyAcceptsAnyFreshCode | accounts/views.py:67-83 | with unique e-mails, "latest wins" never refuses: any unused matching code at most ten minutes old makes verification succeed |
| Accounts.DecideLogin | accounts/views.py:105-129 | missing field exactly when e-mail or password is empty; login only for a stored, verified user whose password checks; an unknown e-mail is a bad-credentials refusal; "not verified" needs a right password |
| Accounts.LoginRejections | accounts/views.py:111-131 | an unknown e-mail and a wrong password give the same 401 and message; an unverified user is told so only after the password is right; a verified user with the right password logs in |
| Accounts.ExploreUsers | accounts/views.py:224-241 | every result is business or premium, has at least 20 followers, and contains each non-empty filter value case-insensitively; every user meeting all of these is in the result; nothing is added |
| Accounts.SuspensionGate | accounts/middleware.py:13-33 | no user: forwarded unchecked; suspended with an end not yet passed: 403 naming the end; suspended with an end passed: unsuspended, then checked; suspended without an end: not stopped by that branch; inactive: 403 |
| Accounts.GateForwardsOnlyCheckedUsers | accounts/middleware.py:25-31 | only an anonymous request or an active user is forwarded, and `downgrade_if_expired` is applied only to a user who passed both checks |
| Accounts.UserTableOkUpdate | accounts/models.py:26-38 | rewriting a user without touching id, e-mail or business name keeps ids, e-mails and non-empty business names unique |
| Accounts.AveragesOnlyKeepTables | ratings/models.py:29 | writing only `average_rating` columns keeps the user table's constraints and the stored follower counts |
| Accounts.AppendUserKeepsTable | accounts/models.py:26-38 | a user with a fresh id and e-mail and no business name keeps ids, e-mails and business names unique |
| Accounts.AddUserOk | accounts/views.py:31 | creating a user for a new e-mail keeps every account-table constraint, and the new user's follower count agrees with the follow rows |
| Accounts.CountsAfterFollow | accounts/views.py:190-192 | after adding the pair and recounting, every stored follower count equals the number of rows following that user, and the target's rose by one |
| Accounts.CountsAfterUnfollow | accounts/views.py:208-210 | after deleting the pair and recounting, every stored follower count equals the row count, and the target's fell by one |
| Accounts.AccountStore.Register | accounts/views.py:22-45 | no e-mail: 400 and nothing stored; a known e-mail: 201, its user reused and one new code stored; a new e-mail while a user with the same (empty) username exists: the uniqueness error and nothing stored; otherwise 201, exactly one new user and one new unused six-digit code in [100000, 999999] for it |
| Accounts.NewUserBlocksNextRegistration | accounts/views.py:31 | once `get_or_create` has stored a user for a new e-mail, the next new e-mail's user collides on the username |
| Accounts.AccountStore.VerifyEmail | accounts/views.py:48-97 | the status of each check in order; on success the chosen code is marked used and the user made verified and active, so that code is no longer the latest usable one; otherwise nothing changes |
| Accounts.AccountStore.FollowUser | accounts/views.py:179-193 | 404 for an unknown target and 400 for oneself or an existing pair, each with no change; otherwise 201, the pair appended, the target's count recounted and one higher, and one follow notification from the follower |
| Accounts.AccountStore.UnfollowUser | accounts/views.py:199-211 | 404 for an unknown target; 400 with no change when not following; otherwise 200, the pair gone, the target's count recounted and one lower |
| Accounts.AccountStore.SetAverages | ratings/models.py:29 | `save(update_fields=['average_rating'])`: only the average columns change, and the account invariants hold |
| Common.Strip | explore/views.py:39 | `str.strip()`: the result neither starts nor ends with whitespace, is a window of the input with only whitespace before and after it, and is empty exactly when the input is all whitespace |
| Common.WindowCutOnlySpace | explore/views.py:39 | cutting leading and then trailing whitespace leaves a window with only whitespace cut away on either side |
| Common.StripIdempotent | explore/views.py:39 | stripping twice is stripping once |
| Common.NatToStringRoundTrip | accounts/views.py:37 | `str(code)` loses nothing: its digits denote the code |
| Common.SixDigitCode | accounts/views.py:34-37 | every code drawn from [100000, 999999] is stored as exactly six characters |
| Common.Take | notifications/signals.py:30 | `s[:n]`: a prefix of `s` of length n, or all of `s` when it is shorter |
| Common.Join | chats/models.py:11 | `", ".join(...)`: empty for no parts, the part itself for one, starting with the first part, with the parts' total length plus the separators |
| Common.JoinAppend | chats/models.py:11 | joining one more part appends the separator and that part |
| Notifications.ParseType | notifications/models.py:7-14 | a stored string is a notification type exactly when it is one of the six choices |
| Notifications.TypeCodeRoundTrip | notifications/models.py:7-18 | every type reads back from its stored code |
| Notifications.FollowTextInjective | notifications/signals.py:19 | "… started following you." names the follower: different usernames give different texts |
| Notifications.MessageTextPreview | notifications/signals.py:30 | the message text is "New message from ", the sender and ": ", then all of a content of at most 40 characters, otherwise exactly its first 40 |
| Notifications.RatingTextDeterminesStars | notifications/signals.py:41 | for one rater, the rating text determines the number of stars |
| Notifications.OwnIndex | notifications/views.py:20 | `get(pk=pk, receiver=user)`: a row with both the id and the receiver, or none exactly when no such row exists |
| Notifications.NotificationStore.Insert | notifications/models.py:16-22 | a new row with the given sender (possibly none) and receiver, unread, with no related object, appended with a fresh id |
| Notifications.NotificationStore.OnFollowSaved | notifications/signals.py:12-20 | a created Follow adds exactly one follow notification from follower to followed user with the follow text; a re-saved row adds none |
| Notifications.NotificationStore.OnMessageSaved | notifications/signals.py:23-31 | a created Message adds exactly one message notification with the message's sender and receiver and the 40-character preview; a re-saved one adds none |
| Notifications.NotificationStore.OnRatingSaved | notifications/signals.py:34-42 | a created Rating adds exactly one rating notification from rater to rated user; a re-saved one adds none |
| Notifications.NotificationStore.ListFor | notifications/views.py:11-12 | exactly the user's notifications, each as often as stored, newest first (notifications/models.py:25-26) |
| Notifications.NotificationStore.MarkRead | notifications/views.py:18-25 | a missing notification, or another user's, gives 404 and no change; one's own is set read and nothing else changes; an already-read row stays as it was |
| Notifications.NotificationStore.Clear | notifications/views.py:31-33 | every notification the requester received is deleted and none of anyone else's |
| Ratings.ValidateStars | ratings/serializers.py:23-26 | stars are accepted exactly when in 1..5, both ends included, and returned unchanged; others are a 400 |
| Ratings.MeanBounds | ratings/models.py:27-28 | a user without ratings has mean 0; with ratings and every star in 1..5 the mean lies in [1, 5] |
| Ratings.TotalsAppend | ratings/models.py:27 | a new rating adds its stars and one count to its rated user's totals and nothing to anyone else's |
| Ratings.TotalsUpdate | ratings/models.py:27 | rewriting a rating replaces its contribution to the totals rather than adding to it |
| Ratings.TotalsRemove | ratings/models.py:27 | deleting a rating takes exactly its contribution away |
| Ratings.RegisteredUserAgrees | ratings/models.py:28 | a new user with average 0 and no ratings agrees with `avg or 0` |
| Ratings.Recount | ratings/models.py:26-29 | `update_user_average` for the given users: their average becomes the mean of the stars they received (0 with none), every other user is untouched, and only `average_rating` changes |
| Ratings.AgreeAfterRecount | ratings/models.py:26-29 | recomputing the users whose totals moved makes every stored average equal its mean again |
| Ratings.DestroyAsWritten | ratings/views.py:33-36 | the delete as written: exactly the chosen row removed and the user table untouched |
| Ratings.DestroyLeavesStaleAverage | ratings/views.py:33-36 | as written, deleting a user's only 5-star rating leaves 5.0 stored where the mean is 0 |
| Ratings.UpdateAsWritten | ratings/views.py:27-31 | the update as written: the row rewritten, its new rated user given the mean of the updated table, and only that user recomputed |
| Ratings.RetargetLeavesStaleAverage | ratings/models.py:26-29 | as written, moving a rating to another user leaves the former user's stale average in place |
| Ratings.AppendKeepsTableOk | ratings/models.py:15 | a new rating with a fresh id, stars in 1..5 and an untaken (rater, rated user) pair keeps the table valid |
| Ratings.CreateKeepsConsistent | ratings/models.py:21-29 | storing a rating and recomputing its rated user keeps every average equal to its mean and every rated user stored |
| Ratings.RemoveKeepsTableOk | ratings/models.py:15 | deleting a rating keeps unique ids and unique pairs |
| Ratings.DeleteKeepsConsistent | ratings/views.py:33-36 | deleting a rating and recomputing its rated user keeps every average equal to its mean |
| Ratings.RewriteKeepsUniquePairs | ratings/models.py:15 | a rewritten rating whose pair no other row holds keeps the pairs unique |
| Ratings.RewriteKeepsTableOk | ratings/models.py:15 | a rewrite keeping the id with stars in 1..5 and an untaken pair keeps the table valid |
| Ratings.UpdateKeepsConsistent | ratings/models.py:21-29 | rewriting a rating and recomputing both its former and new rated user keeps every average equal to its mean |
| Ratings.RatingIndex | ratings/views.py:28 | `get_object()`: a rating with the primary key, or none exactly when no rating has it |
| Ratings.TotalBounds | ratings/serializers.py:23-26 | with every stored star in 1..5, a user's star total lies between their rating count and five times it |
| Ratings.RatingStore.List | ratings/views.py:14-18 | with `rated_user`, exactly that user's ratings; without, all ratings; in both cases each stored row as often as stored; newest first (ratings/models.py:16) |
| Ratings.RatingStore.Create | ratings/views.py:11-12 | invalid stars (default 1) or unknown rated user: 400; a taken pair: refused by the database; otherwise 201, a row whose rater is the requester, the rated user's average recomputed, and one rating notification |
| Ratings.RatingStore.Update | ratings/views.py:27-31 | 404, then 400 for invalid input, then `PermissionError` for a non-rater, each with no change; a taken pair is refused; otherwise 200, the row rewritten (rater read-only) and both affected averages recomputed |
| Ratings.RatingStore.Rewrite | ratings/models.py:21-29 | stores the rewritten row and recomputes its former and new rated users, keeping every average equal to its mean |
| Ratings.RatingStore.Delete | ratings/views.py:33-36 | 404 for an unknown rating; `PermissionError` and no change for a non-rater; otherwise 204, the row removed and the rated user's average recomputed |
| Businesses.SaveSlug | business/models.py:24-26 | an empty slug becomes `slugify(name)`; a non-empty slug is kept whatever the name |
| Businesses.SlugSetOnce | business/models.py:25 | once a save stored a non-empty slug, later saves keep it even if the name changed (repeated saves are idempotent on the slug) |
| Businesses.Edited | business/models.py:24-27 | a partial update then `save`: each sent name, description and category replaces the stored one and each unsent one is kept; owner, verification flag, id, creation time and location are kept; a sent non-empty slug is stored, an unsent slug that was set stays, and when the edit leaves the slug empty, `slugify` of the resulting name is stored |
| Businesses.BusinessIndex | business/views.py:31 | `get_object()`: a business with the primary key, or none exactly when no business has it |
| Businesses.OwnedIndex | business/views.py:48 | `get(owner=user)`: a business of that owner, or none exactly when the user owns none |
| Businesses.RemoveKeepsBusinessTable | business/models.py:10-11 | deleting a business keeps ids, owners, names and slugs unique |
| Businesses.DeleteKeepsTables | business/models.py:34 | deleting a business and, by cascade, its request keeps both tables valid |
| Businesses.AppendKeepsBusinessTable | business/models.py:10-22 | a business with a fresh id, owner, name and slug keeps the one-business-per-owner and uniqueness constraints |
| Businesses.RewriteKeepsBusinessTable | business/models.py:10-22 | rewriting a business with its id and an owner, name and slug no other business has keeps the table valid |
| Businesses.AddRequestKeepsTable | business/models.py:34 | a request for a stored business that has none keeps at most one request per business |
| Businesses.RewriteKeepsRequestTable | business/models.py:34-37 | rewriting a request's flags keeps the request table valid |
| Businesses.BusinessStore.Create | business/views.py:17-21 | invalid input, or a requester who already owns a business: 400 and nothing created; a colliding saved slug is refused; otherwise 201 and one unverified business owned by the requester (business/models.py:19) |
| Businesses.BusinessStore.Update | business/views.py:30-34 | 404, then 400 for invalid input, then `PermissionError` for a non-owner, each with no change; otherwise the business is replaced by its edit |
| Businesses.BusinessStore.Delete | business/views.py:36-39 | 404; `PermissionError` and no change for a non-owner; otherwise 204, the business removed and its request removed with it |
| Businesses.BusinessStore.RequestVerification | business/views.py:46-59 | 404 without a business; 400 when a request exists or the body is refused; otherwise exactly one unapproved, unreviewed request for the requester's business (business/models.py:34-37) |
| Businesses.BusinessStore.Approve | business/views.py:66-73 | non-staff: 403; unknown request: 404; otherwise the request approved with the admin as reviewer and its business verified, and nothing else changes |
| Products.CategoriesByName | products/models.py:14 | categories listed by name: a permutation of the table, ordered by name (explore/views.py:24) |
| Products.ProductIndex | products/views.py:62 | `get_object_or_404(Product, pk=pk)`: a product with the key, or none exactly when no product has it |
| Products.ViewsOf | products/views.py:72-74 | exactly the views of the given product |
| Products.NewProduct | products/models.py:26-27 | a new product stores the sent description, is featured exactly as sent and not featured when nothing is sent, and has stock 0 unless a stock is given |
| Products.EditedProduct | products/views.py:45-49 | a partial update: each sent field (category, name, description, price, featured flag, stock) replaces the stored one, each unsent one is kept, id and creation time are read-only, and an empty update changes nothing |
| Products.DestroyProductKeepsTables | products/models.py:36 | removing a product and, by cascade, its views keeps both tables valid |
| Products.DeleteCategoryKeepsTables | products/models.py:13-21 | removing a category with its products and their views keeps all three tables valid, with (business, name) and (product, viewer) unique |
| Products.ProductStore.CreateCategory | products/views.py:17-19 | no name: 400; a second category of that name for the requester: refused by the database; otherwise 201 and one category owned by the requester (products/models.py:13) |
| Products.ProductStore.CreateProduct | products/views.py:31-36 | invalid input: 400; otherwise the product is stored only when the category belongs to the requester, and nothing is stored otherwise |
| Products.ProductStore.UpdateProduct | products/views.py:45-49 | 404; 400 for invalid input; otherwise the edit is saved only for the category's owner and nothing changes for anyone else |
| Products.ProductStore.DestroyProduct | products/views.py:51-54 | 404; otherwise the owner removes the product and all its views, and for anyone else the product stays |
| Products.ProductStore.DeleteCategory | products/models.py:21-36 | the cascade: the category, its products and their views go, and nothing else |
| Products.ProductStore.RecordView | products/views.py:61-64 | 404 for an unknown product; a second view by the same user is refused (products/models.py:41); otherwise one view (product, requester) is added |
| Chats.ConversationTitle | chats/models.py:10-12 | the title starts with "Conversation between "; with no participants it is only that prefix, with one it is the prefix and that username |
| Chats.TitleOfPair | chats/models.py:10-12 | the title of two users is the prefix then both names separated by ", " |
| Chats.TitleAppend | chats/models.py:11-12 | each further participant adds ", " and their username to the end of the title |
| Chats.ConversationsOf | chats/views.py:13-14 | exactly the conversations whose participants include the user |
| Chats.SharedConversation | chats/views.py:25 | the first conversation holding both users, or none exactly when there is none |
| Chats.NewParticipants | chats/views.py:27-28 | `participants.add(user, receiver)`: both users, nobody else, each once |
| Chats.StartedConversationIsFound | chats/views.py:25-28 | after a conversation is created, starting again finds that same conversation |
| Chats.ReceiverFor | chats/views.py:43 | the first participant other than the requester, and none exactly when everyone is the requester |
| Chats.ReceiverInPair | chats/views.py:43 | in a two-user conversation each side's messages go to the other |
| Chats.MessagesOf | chats/views.py:37-39 | exactly the messages of the conversation, each as often as stored, in ascending timestamp (chats/models.py:27) |
| Chats.LatestOf | chats/models.py:14-15 | a message of the conversation with no later one, or none exactly when it has none |
| Chats.LastMessage | chats/models.py:14-15 | `last_message` is none exactly when the conversation has no message; otherwise one of its messages with no later timestamp |
| Chats.AddConversationKeepsTables | chats/models.py:7 | a new conversation with a fresh id keeps the chat tables valid |
| Chats.AddMessageKeepsTables | chats/models.py:19 | a new message of a stored conversation keeps the chat tables valid |
| Chats.ConversationIndex | chats/views.py:42 | `get_object_or_404(Conversation, id=...)`: a conversation with the id, or none exactly when there is none |
| Chats.ChatStore.StartConversation | chats/views.py:20-30 | unknown receiver: 404 and nothing created; a shared conversation: 201, that one returned and none created; otherwise 201 and exactly one new conversation between the two, which later starts find |
| Chats.ChatStore.SendMessage | chats/views.py:41-44 | invalid body: 400; unknown conversation: 404; no other participant: the `IndexError`; otherwise the message from the requester to the first other participant is stored and one message notification sent |
| Explore.ActiveWindow | explore/models.py:13-14 | no end date: active; with an end date, active exactly before it; at the end instant itself, inactive |
| Explore.EndedStaysEnded | explore/models.py:14 | a promotion that has ended stays ended |
| Explore.HasFeatureWitness | explore/views.py:128 | `featured__isnull=False` holds exactly when the business has a featured row |
| Explore.FeatureCountIsFlag | explore/models.py:9 | with one featured row per business, a featured business has exactly one featured row and any other none |
| Explore.HasFeatureCounted | explore/views.py:127 | `featured__isnull=False` holds exactly when the business has a positive number of featured rows |
| Explore.FeaturedJoinCount | explore/views.py:123-139 | `is_featured` as the query computes it over the grouped join with the owner's received ratings: 0 exactly when the business has no featured row |
| Explore.FeaturedJoinCountIsRatingRows | explore/views.py:123-139 | for a featured business, `is_featured` is the number of ratings its owner received, or 1 when there are none |
| Explore.AverageOf | explore/views.py:123 | `Avg(stars)`: none exactly when the owner has no ratings; otherwise the mean, within [1, 5] |
| Explore.SortBusinesses | explore/views.py:64-70 | a permutation: `followers` gives non-increasing followers, `rating` non-increasing averages, `recent` newest first; any other key keeps the filtered order |
| Explore.SortProducts | explore/views.py:88-96 | a permutation: `views` gives non-increasing view counts, `recent` newest first, `price_asc` non-decreasing price, `price_desc` non-increasing price; any other key keeps the filtered order |
| Explore.SearchBusinesses | explore/views.py:53-70 | exactly the businesses whose name, description or owner username contains `q` (when `q` is non-empty), with each given facet ANDed |
| Explore.SearchProducts | explore/views.py:77-96 | exactly the products whose name, description or category name contains `q`, with the category facet and the seller's location facets ANDed |
| Explore.Search | explore/views.py:38-103 | `type` selects the halves (business: no products; product: no businesses; anything else: both empty); only a response with products is paginated; each half holds exactly the matching rows for the stripped `q` |
| Explore.SearchReadsOnlyThese | explore/views.py:39-45 | two queries with the same stripped text, type, facets and sort give the same result |
| Explore.StrippedTextIsStable | explore/views.py:39 | sending an already stripped `q` searches for the same text |
| Explore.SuggestedBy | explore/views.py:117-140 | for a given `is_featured`: exactly the businesses with a business or premium owner meeting followers ≥ 20, average ≥ 4 or a featured row, with the location filters, each as often as stored; a larger `is_featured` first, then more followers, then the higher average |
| Explore.Suggested | explore/views.py:117-140 | the view as written: the same businesses; featured ones first; `is_featured` never increases along the list, and among equal values (every unfeatured business has 0) followers, then averages, never increase |
| Explore.JoinRankFeaturedFirst | explore/views.py:139 | ordering by the join-multiplied count puts every featured business before every unfeatured one |
| Explore.SuggestedByFlag | explore/views.py:138 | the order the comment describes: the same businesses, featured ones first, and within each group followers, then averages, never increase |
| Explore.FlagOrdered | explore/views.py:138 | ordering by the flag puts featured businesses first and orders each group by followers, then average |
| Explore.LargerRankEarlier | explore/views.py:139 | a business with the larger `is_featured` sits earlier |
| Explore.MoreFollowersEarlier | explore/views.py:139 | among equal `is_featured`, the business whose owner has more followers sits earlier |
| Explore.JoinCountBeatsFollowers | explore/views.py:123-139 | as written, of two suggested featured businesses the one with the larger join-multiplied count comes first even when the other has more followers |
| Explore.FlagKeepsFollowersOrder | explore/views.py:138 | under the flag ordering, of two suggested featured businesses the one with more followers comes first |
| Explore.SampleSuggestFacts | explore/views.py:117-140 | a catalog with two suggestable featured businesses, one with 100 followers and no ratings and the other with no followers and two ratings, meets the premises of both lemmas above |
| Explore.SuggestOrder | explore/views.py:139 | of two businesses in key order, `is_featured` does not increase; among equal values followers do not increase, and among equal followers averages do not increase |
| Explore.SuggestedMeetCriteria | explore/views.py:121-129 | every suggested business has a stored business or premium owner and meets one of the three criteria |
| Explore.RecentViewsBounded | explore/views.py:156 | views inside the window never exceed all views of the product |
| Explore.Trending | explore/views.py:149-164 | a permutation of all products, where score is recent views in `now − days` (7 by default) plus 10 if featured; ordered by score descending, then newest first |
| Explore.FeaturedNeedsFewerViews | explore/views.py:158-162 | an unfeatured product ahead of a featured one has at least ten more recent views |
| Explore.TopRated | explore/views.py:173-175 | a permutation of all businesses, by average descending, then followers descending among equal averages |

## Left out

- JWT issuance, logout and the token blacklist: these are library calls.
- Password hashing: `check_password` is the parameter `checkPassword`.
- The random code and the debug `print`: the code is an input constrained to
  [100000, 999999].
- The wall clock: every operation takes `now`.
- Sending the e-mail: nothing is sent.
- Serializers other than `validate_stars`, and the admin modules, URL routing,
  `mediafiles/*` and `business/views_posts.py`: just field mapping, routing and file
  storage.
- The serializers' own body checks are reduced to a few inputs. For businesses and
  products they are named predicates. For messages the inputs are `content` and
  `bodyConversation`, and for the verification request a `bodyValid` flag.
- DRF page slicing: only the page-size constants and which response is paginated are
  modelled.
- `ProfileView`: the read and partial update of one's own profile through the
  serializer. `ProfileSerializer` lets the user change their own `username`
  (accounts/serializers.py:9), and that is the only way in the core to rename the user
  whose username is "". Without it, no state reached from `AccountStore`'s constructor
  holds two users (`NewUserBlocksNextRegistration`), so the success paths of
  `FollowUser`, `UnfollowUser` and the rating methods are proved for every `Valid()`
  state but reached only from states with more users.
- Where the database puts a NULL average under `-avg`: this varies by database, so it
  is the parameter `nullsFirst`.
- Float rounding: averages are exact reals.
- The unused `fcount` annotation (explore/views.py:66): it groups by business and
  changes neither the rows nor the `-owner__followers_count` order the model uses.
- Concurrency: the read-then-write recounts are modelled one request at a time.
- `slugify` is Django's (business/models.py:5), and `User.unsuspend` and
  `downgrade_if_expired` are not defined in accounts/models.py: all three are function
  parameters.
- Runtime defects are modelled as the evident intent:
  - the missing `models` import in the trending view;
  - `int(days)` on a non-numeric value (`days` is an integer input);
  - the `Response` objects the product views return and the framework ignores
    (modelled as "nothing saved" with the handler's success status).
- `TrendingProductCache`: no view reads it.
- The rest of `AbstractUser`: only the fields the views use are modelled. Username
  uniqueness is checked where users are created (registration); it is not kept as a
  table invariant, since no modelled operation changes a username.
- Cascades from deleting a user, and from a business to its `FeaturedBusiness` row:
  no view in the core deletes users, and featured rows are a read-only input of the
  explore views.
- `Message.__str__` and the other `__str__` methods except the conversation title:
  they are display only.
- The client-writable `is_approved`/`reviewed_by` fields of the request serializer: a
  new request is modelled as unapproved and unreviewed, as the view intends.
- Strings:
  - case folding and whitespace are ASCII only;
  - category names are ordered by code point, not by the database collation.
- Prices: a whole number of hundredths. Only the total digit bound is checked, not the
  decimal-places validation.
- Products.ProductStore.DeleteCategory: no view deletes a category. The method models
  the ORM cascade that such a delete triggers.
- Chats.ChatStore.SendMessage does not check that the requester takes part in the
  conversation. Neither does `MessageListCreateView`, and the model keeps it that way.

## Findings

| source | as written | input that shows it | evidently intended | confidence | as-written member | corrected member |
|---|---|---|---|---|---|---|
| ratings/views.py:33-36 | `perform_destroy` deletes the rating without recomputing the rated user's `average_rating` (a delete does not go through `Rating.save`) | user 2 holds one 5-star rating and average 5.0; deleting it leaves 5.0 stored while the mean is 0 | every stored average equals the mean of the ratings received (ratings/models.py:26-29) | not executed | Ratings.DestroyAsWritten, Ratings.DestroyLeavesStaleAverage | Ratings.RatingStore.Delete |
| explore/views.py:123-139 | `Count('featured')` is taken over the same grouped join as `Avg('owner__received_ratings__stars')`, so a featured business's `is_featured` is the number of ratings its owner received (at least 1), and featured businesses are ordered by that count before followers | featured B1 with 100 followers and no ratings, featured B2 with no followers and two ratings: B2 (count 2) is listed before B1 (count 1) | featured businesses first, then followers, then rating, as the comment at explore/views.py:138 says | not executed | Explore.Suggested, Explore.JoinCountBeatsFollowers, Explore.SampleSuggestFacts | Explore.SuggestedByFlag, Explore.FlagKeepsFollowersOrder |
| ratings/models.py:26-29 | `Rating.save` recomputes only the current `rated_user`; when an update moves a rating to another user (ratings/views.py:27-31), the former user keeps a stale average | user 1's 5-star rating of user 2 is retargeted to user 3; user 2 keeps 5.0 with no ratings left | both the former and the new rated user are recomputed | not executed | Ratings.UpdateAsWritten, Ratings.RetargetLeavesStaleAverage | Ratings.RatingStore.Update |
