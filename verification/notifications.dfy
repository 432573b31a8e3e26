/** `NotificationService`: notifications by id, always created unread,
    marked read in place, and the per-user unread list and count. */
module NotificationStore {
  import opened Wrappers
  import opened Text

  datatype NotificationRecord = NotificationRecord(
    id: int,
    userId: Option<int>,
    title: Option<string>,
    message: Option<string>,
    kind: Option<string>,
    isRead: bool)

  /** `NotificationDTO`; `kind` is its `type` field. */
  datatype NotificationDto = NotificationDto(
    id: Option<int>,
    userId: Option<int>,
    title: Option<string>,
    message: Option<string>,
    kind: Option<string>,
    isRead: Option<bool>)

  function NotFound(id: int): string {
    "Notification not found with id: " + IntToString(id)
  }

  /** The row `createNotification` inserts: unread whatever the DTO says. */
  function Created(dto: NotificationDto, id: int): (r: NotificationRecord)
    ensures r.id == id && !r.isRead
    ensures r.userId == dto.userId && r.title == dto.title && r.message == dto.message && r.kind == dto.kind
  {
    NotificationRecord(id, dto.userId, dto.title, dto.message, dto.kind, false)
  }

  function ToDto(r: NotificationRecord): NotificationDto {
    NotificationDto(Some(r.id), r.userId, r.title, r.message, r.kind, Some(r.isRead))
  }

  /** What `createNotification` returns carries what was sent, under the new
      id and unread whatever `isRead` the DTO held. */
  lemma CreatedReadsBack(dto: NotificationDto, id: int)
    ensures ToDto(Created(dto, id)) == dto.(id := Some(id), isRead := Some(false))
  {
  }

  /** The table after `markAsRead(id)`. */
  function MarkRead(rows: map<int, NotificationRecord>, id: int): (r: map<int, NotificationRecord>)
    requires id in rows
    ensures r.Keys == rows.Keys && r[id].isRead
    ensures forall k :: k in rows && k != id ==> r[k] == rows[k]
  {
    rows[id := rows[id].(isRead := true)]
  }

  /** What `findByUserIdAndIsRead(userId, false)` selects: the ids of the
      user's notifications that are still unread. */
  function UnreadIds(rows: map<int, NotificationRecord>, userId: Option<int>): (ids: set<int>)
    ensures forall k :: k in ids <==> k in rows && rows[k].userId == userId && !rows[k].isRead
  {
    set k | k in rows && rows[k].userId == userId && !rows[k].isRead
  }

  /** Marking read twice leaves what marking once did. */
  lemma MarkReadIdempotent(rows: map<int, NotificationRecord>, id: int)
    requires id in rows
    ensures MarkRead(MarkRead(rows, id), id) == MarkRead(rows, id)
  {
  }

  /** Marking one notification read takes exactly it out of every unread set. */
  lemma {:induction false} MarkReadLeavesUnread(rows: map<int, NotificationRecord>, id: int, userId: Option<int>)
    requires id in rows
    ensures UnreadIds(MarkRead(rows, id), userId) == UnreadIds(rows, userId) - {id}
  {
    var after := UnreadIds(MarkRead(rows, id), userId);
    var before := UnreadIds(rows, userId);
    forall k | k in after
      ensures k in before - {id}
    {
      assert k != id;
    }
    forall k | k in before - {id}
      ensures k in after
    {
      assert MarkRead(rows, id)[k] == rows[k];
    }
  }

  lemma SomeElement(s: set<int>)
    requires s != {}
    ensures exists x :: x in s
  {
    if forall x :: x !in s {
      assert false;
    }
  }

  /** Taking `k` out of the ids still to scan adds it to those scanned. */
  lemma TakeOne(unread: set<int>, left: set<int>, k: int)
    requires k in left
    ensures k in unread ==> unread - (left - {k}) == (unread - left) + {k} && k !in unread - left
    ensures k !in unread ==> unread - (left - {k}) == unread - left
  {
  }

  /** Scans `keys` in some order and lists those in `keep`, each once. */
  method Scan(keys: set<int>, keep: set<int>) returns (ids: seq<int>)
    requires keep <= keys
    ensures |ids| == |keep|
    ensures forall k :: k in ids <==> k in keep
  {
    var left := keys;
    ids := [];
    while left != {}
      invariant forall k :: k in ids <==> k in keep && k !in left
      invariant |ids| == |keep - left|
      decreases |left|
    {
      SomeElement(left);
      var k :| k in left;
      TakeOne(keep, left, k);
      if k in keep {
        ids := ids + [k];
      }
      left := left - {k};
    }
    assert keep - {} == keep;
  }

  class NotificationService {
    var rows: map<int, NotificationRecord>
    var nextId: int

    ghost predicate Valid()
      reads this
    {
      nextId > 0 && forall k :: k in rows ==> 0 < k < nextId && rows[k].id == k
    }

    constructor ()
      ensures Valid() && rows == map[]
    {
      rows := map[];
      nextId := 1;
    }

    /** `createNotification`. */
    method CreateNotification(dto: NotificationDto) returns (out: NotificationDto)
      requires Valid()
      modifies this
      ensures Valid() && nextId == old(nextId) + 1
      ensures old(nextId) !in old(rows)
      ensures rows == old(rows)[old(nextId) := Created(dto, old(nextId))]
      ensures out == ToDto(Created(dto, old(nextId)))
    {
      var n := NotificationRecord(nextId, dto.userId, dto.title, dto.message, dto.kind, false);
      rows := rows[nextId := n];
      nextId := nextId + 1;
      out := ToDto(n);
    }

    /** `getNotificationById`. */
    method GetNotificationById(id: int) returns (r: Result<NotificationDto, string>)
      ensures id in rows ==> r == Ok(ToDto(rows[id]))
      ensures id !in rows ==> r == Err(NotFound(id))
    {
      if id !in rows {
        return Err(NotFound(id));
      }
      r := Ok(ToDto(rows[id]));
    }

    /** `markAsRead`. */
    method MarkAsRead(id: int) returns (r: Result<NotificationDto, string>)
      requires Valid()
      modifies this
      ensures Valid() && nextId == old(nextId)
      ensures id !in old(rows) ==> r == Err(NotFound(id)) && rows == old(rows)
      ensures id in old(rows) ==> rows == MarkRead(old(rows), id) && r == Ok(ToDto(rows[id]))
    {
      if id !in rows {
        return Err(NotFound(id));
      }
      var n := rows[id].(isRead := true);
      rows := rows[id := n];
      r := Ok(ToDto(n));
    }

    /** `deleteNotification`: fails on an unknown id; otherwise removes that row only. */
    method DeleteNotification(id: int) returns (r: Result<(), string>)
      requires Valid()
      modifies this
      ensures Valid() && nextId == old(nextId)
      ensures id !in old(rows) ==> r == Err(NotFound(id)) && rows == old(rows)
      ensures id in old(rows) ==> r == Ok(()) && rows == old(rows) - {id}
    {
      if id !in rows {
        return Err(NotFound(id));
      }
      rows := rows - {id};
      r := Ok(());
    }

    /** The ids the repository query selects, each once, in the order the
        table is scanned. */
    method UnreadIdList(userId: Option<int>) returns (ids: seq<int>)
      ensures |ids| == |UnreadIds(rows, userId)|
      ensures forall k :: k in ids <==> k in UnreadIds(rows, userId)
      ensures forall i :: 0 <= i < |ids| ==> ids[i] in UnreadIds(rows, userId)
    {
      ids := Scan(rows.Keys, UnreadIds(rows, userId));
    }

    /** `getUnreadNotificationsByUserId`: one DTO per unread notification of
        the user, each once, in the repository's (unspecified) order. */
    method GetUnreadNotificationsByUserId(userId: Option<int>) returns (r: seq<NotificationDto>)
      ensures |r| == |UnreadIds(rows, userId)|
      ensures forall k :: k in UnreadIds(rows, userId) ==> ToDto(rows[k]) in r
      ensures forall d :: d in r ==> exists k :: k in UnreadIds(rows, userId) && d == ToDto(rows[k])
    {
      var ids := UnreadIdList(userId);
      var table := rows;
      r := seq(|ids|, i requires 0 <= i < |ids| && ids[i] in table => ToDto(table[ids[i]]));
      forall k | k in UnreadIds(rows, userId)
        ensures ToDto(rows[k]) in r
      {
        var i :| 0 <= i < |ids| && ids[i] == k;
        assert r[i] == ToDto(rows[k]);
      }
      forall d | d in r
        ensures exists k :: k in UnreadIds(rows, userId) && d == ToDto(rows[k])
      {
        var i :| 0 <= i < |r| && r[i] == d;
        var k := ids[i];
        assert k in UnreadIds(rows, userId) && r[i] == ToDto(rows[k]);
      }
    }

    /** `getUnreadCount`. */
    method GetUnreadCount(userId: Option<int>) returns (n: int)
      ensures n == |UnreadIds(rows, userId)|
      ensures n == 0 <==> forall k :: k in rows && rows[k].userId == userId ==> rows[k].isRead
    {
      n := |UnreadIds(rows, userId)|;
      if n == 0 {
        assert UnreadIds(rows, userId) == {};
      } else {
        assert UnreadIds(rows, userId) != {};
        SomeElement(UnreadIds(rows, userId));
        var k :| k in UnreadIds(rows, userId);
      }
    }
  }
}
