/**
 * Notices: announcements every user can read, their view counter, and the
 * per-user read records the service keeps.
 */
module Notices {
  import opened Common
  import opened ErrorCodes
  import opened JavaLang

  datatype NoticeType = General | UpdateNotice | Event | Maintenance

  class Notice {
    const id: Uuid
    const noticeType: NoticeType
    const title: string
    const content: string
    var views: Int32

    /** The builder: views default to 0. */
    constructor (id: Uuid, t: NoticeType, title: string, content: string)
      ensures this.id == id && noticeType == t && this.title == title && this.content == content
      ensures views == 0
    {
      this.id := id;
      noticeType := t;
      this.title := title;
      this.content := content;
      views := 0;
    }

    /** `incrementViews`: `views++` on an Integer, so the count wraps past the int range. */
    method IncrementViews()
      modifies this
      ensures views == IntIncrement(old(views))
      ensures old(views) as int < IntMax ==> views as int == old(views) as int + 1
    {
      views := IntIncrement(views);
    }
  }

  /** `NoticeDetailResponse`: what a reader sees, including the view count after this view. */
  datatype NoticeDetail = NoticeDetail(id: Uuid, noticeType: NoticeType, title: string, content: string, views: Int32)

  class NoticeService {
    /** The notice store, by id. */
    var notices: map<Uuid, Notice>
    /** The ids of the users that exist. */
    var users: set<Uuid>
    /**
     * The read records as (user id, notice id) pairs; the unique constraint
     * on the pair makes them a set.
     */
    var readRecords: set<(Uuid, Uuid)>

    predicate Valid()
      reads this
    {
      forall id :: id in notices ==> notices[id].id == id
    }

    constructor (users: set<Uuid>)
      ensures Valid() && notices == map[] && this.users == users && readRecords == {}
    {
      notices := map[];
      this.users := users;
      readRecords := {};
    }

    /** `getNotices`: every notice, or those of the given type (paging and order not modelled). */
    function GetNotices(t: Option<NoticeType>): (r: set<Uuid>)
      reads this
      ensures forall id :: id in r <==> (id in notices && (t.None? || notices[id].noticeType == t.value))
    {
      set id | id in notices && (t.None? || notices[id].noticeType == t.value)
    }

    /** `getNotice`: a missing notice is NOTICE_NOT_FOUND; otherwise its views go up by one first. */
    method GetNotice(noticeId: Uuid) returns (r: Result<NoticeDetail, ErrorCode>)
      requires Valid()
      modifies if noticeId in notices then {notices[noticeId]} else {}
      ensures noticeId !in notices ==> r == Failure(NoticeNotFound)
      ensures noticeId in notices ==>
        notices[noticeId].views == IntIncrement(old(notices[noticeId].views)) &&
        r == Success(NoticeDetail(noticeId, notices[noticeId].noticeType, notices[noticeId].title,
                                  notices[noticeId].content, notices[noticeId].views))
    {
      if noticeId !in notices {
        return Failure(NoticeNotFound);
      }
      var notice := notices[noticeId];
      notice.IncrementViews();
      r := Success(NoticeDetail(notice.id, notice.noticeType, notice.title, notice.content, notice.views));
    }

    /**
     * `markAsRead`: the notice must exist (NOTICE_NOT_FOUND), then the user
     * (USER_NOT_FOUND); a record already present is left alone, so marking
     * twice is marking once.
     */
    method MarkAsRead(noticeId: Uuid, userId: Uuid) returns (r: Result<(), ErrorCode>)
      modifies this
      ensures notices == old(notices) && users == old(users)
      ensures noticeId !in notices ==> r == Failure(NoticeNotFound)
      ensures noticeId in notices && userId !in users ==> r == Failure(UserNotFound)
      ensures r.Failure? ==> readRecords == old(readRecords)
      ensures r.Success? <==> noticeId in notices && userId in users
      ensures r.Success? ==> readRecords == old(readRecords) + {(userId, noticeId)}
    {
      if noticeId !in notices {
        return Failure(NoticeNotFound);
      }
      if userId !in users {
        return Failure(UserNotFound);
      }
      if (userId, noticeId) in readRecords {
        return Success(());
      }
      readRecords := readRecords + {(userId, noticeId)};
      r := Success(());
    }

    /** `getReadNoticeIds`: the notices the user has read; an unknown user simply has none. */
    function GetReadNoticeIds(userId: Uuid): (r: set<Uuid>)
      reads this
      ensures forall n :: n in r <==> (userId, n) in readRecords
    {
      set p | p in readRecords && p.0 == userId :: p.1
    }

    /** `isRead`: false when the notice or the user is missing, else whether a read record exists. */
    function IsRead(noticeId: Uuid, userId: Uuid): (r: bool)
      reads this
      ensures r ==> noticeId in notices && userId in users
      ensures noticeId in notices && userId in users ==> (r <==> noticeId in GetReadNoticeIds(userId))
    {
      noticeId in notices && userId in users && (userId, noticeId) in readRecords
    }
  }

  /** n readings of a notice below the wrap point add exactly n views. */
  lemma ViewsAddUp(views: Int32, n: nat)
    requires views as int + n <= IntMax
    ensures IntIncrementTimes(views, n) as int == views as int + n
  {
    IntIncrementTimesAdds(views, n);
  }
}
