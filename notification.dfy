/**
 * Notifications: messages addressed to one user, their read flag, and the
 * service that lists them, counts and marks the unread ones, and creates
 * new ones for other services.
 */
module Notifications {
  import opened Common
  import opened ErrorCodes
  import opened Users

  datatype NotificationType = CastingRequest | ProfileView | FavoriteNotice | MessageNotice | SystemNotice

  class Notification {
    const id: Uuid
    /** The addressee's id. */
    const userId: Uuid
    const notificationType: NotificationType
    const title: string
    const message: Option<string>
    const relatedId: Option<Uuid>
    var isRead: bool

    /** `create(...)`: the arguments as given; a new notification is unread. */
    constructor Create(id: Uuid, userId: Uuid, t: NotificationType, title: string, message: Option<string>,
                       relatedId: Option<Uuid>)
      ensures this.id == id && this.userId == userId && notificationType == t
      ensures this.title == title && this.message == message && this.relatedId == relatedId
      ensures !isRead
    {
      this.id := id;
      this.userId := userId;
      notificationType := t;
      this.title := title;
      this.message := message;
      this.relatedId := relatedId;
      isRead := false;
    }

    /** `markAsRead`: the flag becomes true; marking twice is marking once. */
    method MarkAsRead()
      modifies this
      ensures isRead
    {
      isRead := true;
    }
  }

  class NotificationService {
    /** The notification store, by id. */
    var notifications: map<Uuid, Notification>

    predicate Valid()
      reads this
    {
      forall id :: id in notifications ==> notifications[id].id == id
    }

    constructor ()
      ensures Valid() && notifications == map[]
    {
      notifications := map[];
    }

    /** The stored notification objects, whose read flags the service reads and writes. */
    function Stored(): set<Notification>
      reads this
    {
      set id | id in notifications :: notifications[id]
    }

    /** The ids of a user's notifications that are still unread. */
    function UnreadOf(userId: Uuid): (r: set<Uuid>)
      reads this, Stored()
      ensures forall id :: id in r <==>
                (id in notifications && notifications[id].userId == userId && !notifications[id].isRead)
    {
      set id | id in notifications && notifications[id].userId == userId && !notifications[id].isRead
    }

    /**
     * `getNotifications`: the caller's notifications, filtered by the read
     * flag when one is given, else by the type when one is given; the two
     * filters are never combined (paging not modelled).
     */
    function GetNotifications(user: User, isRead: Option<bool>, t: Option<NotificationType>): (r: set<Uuid>)
      reads this, Stored()
      ensures isRead.Some? ==> forall id :: id in r <==>
        (id in notifications && notifications[id].userId == user.id && notifications[id].isRead == isRead.value)
      ensures isRead.None? && t.Some? ==> forall id :: id in r <==>
        (id in notifications && notifications[id].userId == user.id && notifications[id].notificationType == t.value)
      ensures isRead.None? && t.None? ==> forall id :: id in r <==>
        (id in notifications && notifications[id].userId == user.id)
    {
      if isRead.Some? then
        set id | id in notifications && notifications[id].userId == user.id && notifications[id].isRead == isRead.value
      else if t.Some? then
        set id | id in notifications && notifications[id].userId == user.id && notifications[id].notificationType == t.value
      else
        set id | id in notifications && notifications[id].userId == user.id
    }

    /** `getUnreadCount`: how many of the caller's notifications are unread. */
    function GetUnreadCount(user: User): (r: nat)
      reads this, Stored()
      ensures r == |UnreadOf(user.id)|
      ensures r == 0 <==> GetNotifications(user, Some(false), None) == {}
    {
      assert GetNotifications(user, Some(false), None) == UnreadOf(user.id);
      |UnreadOf(user.id)|
    }

    /**
     * `markAsRead`: only the caller's own notification is marked; another
     * user's is NOTIFICATION_NOT_FOUND, exactly as a missing one.
     */
    method MarkAsRead(user: User, notificationId: Uuid) returns (r: Result<(), ErrorCode>)
      requires Valid()
      modifies if notificationId in notifications then {notifications[notificationId]} else {}
      ensures r.Success? <==> notificationId in notifications && notifications[notificationId].userId == user.id
      ensures r.Failure? ==> r == Failure(NotificationNotFound) &&
                             (notificationId in notifications ==>
                                notifications[notificationId].isRead == old(notifications[notificationId].isRead))
      ensures r.Success? ==> notifications[notificationId].isRead
    {
      if notificationId !in notifications || notifications[notificationId].userId != user.id {
        return Failure(NotificationNotFound);
      }
      notifications[notificationId].MarkAsRead();
      r := Success(());
    }

    /**
     * `markAllAsRead`: one bulk update sets every unread notification of the
     * caller to read and answers how many rows it changed; other users'
     * notifications are untouched.
     */
    method MarkAllAsRead(user: User) returns (count: nat)
      requires Valid()
      modifies Stored()
      ensures count == old(|UnreadOf(user.id)|)
      ensures UnreadOf(user.id) == {}
      ensures forall id :: id in notifications && notifications[id].userId != user.id ==>
                notifications[id].isRead == old(notifications[id].isRead)
      ensures forall id :: id in notifications ==> (old(notifications[id].isRead) ==> notifications[id].isRead)
    {
      var targets := UnreadOf(user.id);
      count := |targets|;
      forall id | id in targets {
        notifications[id].isRead := true;
      }
    }

    /** `createNotification`: stores a new unread notification for the user under `newId`. */
    method CreateNotification(user: User, t: NotificationType, title: string, message: Option<string>,
                              relatedId: Option<Uuid>, newId: Uuid) returns (n: Notification)
      requires Valid() && newId !in notifications
      modifies this
      ensures Valid()
      ensures fresh(n) && notifications == old(notifications)[newId := n]
      ensures n.userId == user.id && n.notificationType == t && n.title == title
      ensures n.message == message && n.relatedId == relatedId && !n.isRead
    {
      n := new Notification.Create(newId, user.id, t, title, message, relatedId);
      notifications := notifications[newId := n];
    }
  }
}
