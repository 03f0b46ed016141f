/** The notifications app: the Notification table, the three `post_save` handlers that
    fan out Follow, Message and Rating rows into it, and the receiver-only list, mark-read
    and clear views. */
module Notifications {
  import opened Common
  import opened Tables
  import opened Sorting

  /** The six choices of `Notification.notification_type`. */
  datatype NotificationType = FollowNote | MessageNote | RatingNote | ProductNote | SystemNote | VerificationNote

  function TypeCode(t: NotificationType): string {
    match t
    case FollowNote => "follow"
    case MessageNote => "message"
    case RatingNote => "rating"
    case ProductNote => "product"
    case SystemNote => "system"
    case VerificationNote => "verification"
  }

  /** The stored column value back to its choice; anything outside the six is refused. */
  function ParseType(s: string): (r: Option<NotificationType>)
    ensures r.Some? ==> TypeCode(r.value) == s
    ensures r.None? ==> forall t :: TypeCode(t) != s
  {
    if s == "follow" then Some(FollowNote)
    else if s == "message" then Some(MessageNote)
    else if s == "rating" then Some(RatingNote)
    else if s == "product" then Some(ProductNote)
    else if s == "system" then Some(SystemNote)
    else if s == "verification" then Some(VerificationNote)
    else None
  }

  lemma TypeCodeRoundTrip(t: NotificationType)
    ensures ParseType(TypeCode(t)) == Some(t)
  {
  }

  /** A stored notification. `sender` may be absent; `receiver` is required. */
  datatype Notification = Notification(
    id: Id,
    sender: Option<Id>,
    receiver: Id,
    kind: NotificationType,
    message: string,
    relatedObjectId: Option<nat>,
    isRead: bool,
    createdAt: Time)

  // ---------------------------------------------------------------------------
  // Message texts of the three handlers
  // ---------------------------------------------------------------------------

  const FollowSuffix: string := " started following you."
  const MessagePrefix: string := "New message from "
  const MessagePreviewLength: nat := 40

  function FollowText(followerName: string): string {
    followerName + FollowSuffix
  }

  /** Distinct followers are announced by distinct texts. */
  lemma FollowTextInjective(a: string, b: string)
    ensures FollowText(a) == FollowText(b) ==> a == b
  {
    if FollowText(a) == FollowText(b) {
      assert |a| == |b|;
      assert a == FollowText(a)[..|a|];
      assert b == FollowText(b)[..|b|];
    }
  }

  function MessageText(senderName: string, content: string): string {
    MessagePrefix + senderName + ": " + Take(content, MessagePreviewLength)
  }

  /** The preview is the first 40 characters of the content: all of a short message, and
      exactly its first 40 characters otherwise. */
  lemma MessageTextPreview(senderName: string, content: string)
    ensures var t := MessageText(senderName, content);
            var n := |MessagePrefix| + |senderName| + 2;
            |t| <= n + MessagePreviewLength
            && t[..n] == MessagePrefix + senderName + ": "
            && (|content| <= MessagePreviewLength ==> t[n..] == content)
            && (|content| > MessagePreviewLength ==> t[n..] == content[..MessagePreviewLength])
  {
  }

  function RatingText(raterName: string, stars: nat): string {
    raterName + " rated you " + NatToString(stars) + " stars."
  }

  /** For one rater, the text determines the number of stars. */
  lemma RatingTextDeterminesStars(raterName: string, m: nat, n: nat)
    ensures RatingText(raterName, m) == RatingText(raterName, n) ==> m == n
  {
    var p := raterName + " rated you ";
    var tm, tn := RatingText(raterName, m), RatingText(raterName, n);
    if tm == tn {
      assert tm == p + NatToString(m) + " stars.";
      assert tn == p + NatToString(n) + " stars.";
      assert |NatToString(m)| == |NatToString(n)|;
      assert NatToString(m) == tm[|p|..|tm| - 7];
      assert NatToString(n) == tn[|p|..|tn| - 7];
      NatToStringInjective(m, n);
    }
  }

  // ---------------------------------------------------------------------------
  // Queries over the table
  // ---------------------------------------------------------------------------

  function ReceivedBy(rows: seq<Notification>, user: Id): seq<Notification> {
    Filter(rows, (n: Notification) => n.receiver == user)
  }

  function NotReceivedBy(rows: seq<Notification>, user: Id): seq<Notification> {
    Filter(rows, (n: Notification) => n.receiver != user)
  }

  /** `Meta.ordering = ['-created_at']`. */
  predicate NewerOrSame(a: Notification, b: Notification) {
    a.createdAt >= b.createdAt
  }

  /** `Notification.objects.get(pk=pk, receiver=user)`. */
  function OwnIndex(rows: seq<Notification>, pk: Id, user: Id): (r: Option<nat>)
    ensures r.Some? ==> r.value < |rows| && rows[r.value].id == pk && rows[r.value].receiver == user
    ensures r.None? ==> forall n :: n in rows ==> !(n.id == pk && n.receiver == user)
  {
    FindFirst(rows, (n: Notification) => n.id == pk && n.receiver == user)
  }

  ghost predicate IdsBelow(rows: seq<Notification>, bound: Id) {
    forall i :: 0 <= i < |rows| ==> rows[i].id < bound
  }

  function NotificationId(n: Notification): Id { n.id }

  class NotificationStore {
    var rows: seq<Notification>
    var nextId: Id

    ghost predicate Valid()
      reads this
    {
      IdsBelow(rows, nextId) && UniqueKeys(rows, NotificationId)
    }

    constructor ()
      ensures Valid() && rows == []
    {
      rows, nextId := [], 1;
    }

    /** `Notification.objects.create(...)`: a new row is unread and has no related object. */
    method Insert(sender: Option<Id>, receiver: Id, kind: NotificationType, message: string, now: Time)
      returns (id: Id)
      requires Valid()
      modifies this
      ensures Valid()
      ensures id == old(nextId) && nextId > id
      ensures rows == old(rows) + [Notification(id, sender, receiver, kind, message, None, false, now)]
    {
      id := nextId;
      rows := rows + [Notification(id, sender, receiver, kind, message, None, false, now)];
      nextId := nextId + 1;
    }

    /** `send_follow_notification`: one notification from the follower to the followed
        user, and nothing when an existing Follow row is saved again. */
    method OnFollowSaved(follower: Id, followerName: string, following: Id, created: bool, now: Time)
      returns (id: Option<Id>)
      requires Valid()
      modifies this
      ensures Valid()
      ensures created ==> id == Some(old(nextId))
      ensures created ==> rows == old(rows) + [Notification(old(nextId), Some(follower), following, FollowNote, FollowText(followerName),
        None, false, now)]
      ensures !created ==> id == None && rows == old(rows) && nextId == old(nextId)
    {
      id := None;
      if created {
        var k := Insert(Some(follower), following, FollowNote, FollowText(followerName), now);
        id := Some(k);
      }
    }

    /** `send_message_notification`: same sender and receiver as the message. */
    method OnMessageSaved(sender: Id, senderName: string, receiver: Id, content: string, created: bool, now: Time)
      returns (id: Option<Id>)
      requires Valid()
      modifies this
      ensures Valid()
      ensures created ==> id == Some(old(nextId))
      ensures created ==> rows == old(rows) + [Notification(old(nextId), Some(sender), receiver, MessageNote, MessageText(senderName, content),
        None, false, now)]
      ensures !created ==> id == None && rows == old(rows) && nextId == old(nextId)
    {
      id := None;
      if created {
        var k := Insert(Some(sender), receiver, MessageNote, MessageText(senderName, content), now);
        id := Some(k);
      }
    }

    /** `send_rating_notification`: from the rater to the rated user. */
    method OnRatingSaved(rater: Id, raterName: string, ratedUser: Id, stars: nat, created: bool, now: Time)
      returns (id: Option<Id>)
      requires Valid()
      modifies this
      ensures Valid()
      ensures created ==> id == Some(old(nextId))
      ensures created ==> rows == old(rows) + [Notification(old(nextId), Some(rater), ratedUser, RatingNote, RatingText(raterName, stars),
        None, false, now)]
      ensures !created ==> id == None && rows == old(rows) && nextId == old(nextId)
    {
      id := None;
      if created {
        var k := Insert(Some(rater), ratedUser, RatingNote, RatingText(raterName, stars), now);
        id := Some(k);
      }
    }

    /** `NotificationListView`: the user's notifications, newest first. */
    function ListFor(user: Id): (r: seq<Notification>)
      reads this
      ensures forall n :: n in r <==> n in rows && n.receiver == user
      ensures multiset(r) == multiset(ReceivedBy(rows, user))
      ensures forall i, j :: 0 <= i < j < |r| ==> r[i].createdAt >= r[j].createdAt
    {
      var mine := ReceivedBy(rows, user);
      SortBySorted(mine, NewerOrSame);
      var r := SortBy(mine, NewerOrSame);
      assert forall n :: n in r <==> n in mine by {
        forall n ensures n in r <==> n in mine {
          assert n in r <==> n in multiset(r);
          assert n in mine <==> n in multiset(mine);
        }
      }
      r
    }

    /** `MarkNotificationAsReadView`: only the receiver can mark a notification read;
        anything else, including another user's notification, is 404 with no change. */
    method MarkRead(requester: Id, pk: Id) returns (st: Status)
      requires Valid()
      modifies this
      ensures Valid() && nextId == old(nextId)
      ensures OwnIndex(old(rows), pk, requester).None? ==> st == NotFound && rows == old(rows)
      ensures OwnIndex(old(rows), pk, requester).Some? ==>
        var k := OwnIndex(old(rows), pk, requester).value;
        st == Ok && rows == old(rows)[k := old(rows)[k].(isRead := true)]
      ensures forall k :: 0 <= k < |old(rows)| && old(rows)[k].isRead ==> rows[k] == old(rows)[k]
    {
      var k := OwnIndex(rows, pk, requester);
      if k.None? {
        st := NotFound;
      } else {
        rows := rows[k.value := rows[k.value].(isRead := true)];
        st := Ok;
      }
    }

    /** `ClearNotificationsView`: deletes every notification the requester received and
        nothing else. */
    method Clear(requester: Id) returns (st: Status)
      requires Valid()
      modifies this
      ensures Valid() && nextId == old(nextId) && st == Ok
      ensures rows == NotReceivedBy(old(rows), requester)
      ensures forall n :: n in rows <==> n in old(rows) && n.receiver != requester
    {
      FilterKeepsUniqueKeys(rows, NotificationId, (n: Notification) => n.receiver != requester);
      rows := NotReceivedBy(rows, requester);
      st := Ok;
    }
  }
}
