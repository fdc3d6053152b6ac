/**
 * Reminders (src/firebase/notificationsService.js): records in the
 * `recordatorios` collection that go from "pending" to "sent", the text of the
 * notification they produce, and the decision to arm a local timer.
 */
module NotificationsService {
  import opened Wrappers
  import opened Seqs
  import opened Strings
  import opened Firestore

  datatype Status = Pending | Sent

  /** A stored reminder. Times are milliseconds since the epoch. */
  datatype Reminder = Reminder(
    id: string, userId: string, eventId: string, eventTitle: string,
    reminderTime: int, reminderMinutes: int, status: Status,
    createdAt: int, sentAt: Option<int>)

  // ------------------------------------------------------------ the text

  /** `formatReminderTime`: whole hours from 60 minutes on, minutes below that. */
  function FormatReminderTime(minutes: int): string
  {
    if minutes >= 60 then
      var hours := minutes / 60;
      if hours == 1 then "1 hora" else IntToString(hours) + " horas"
    else IntToString(minutes) + " minutos"
  }

  lemma {:induction false} NatToStringNoSpace(n: nat)
    ensures forall i :: 0 <= i < |NatToString(n)| ==> NatToString(n)[i] != ' '
  {
    NatToStringRoundTrip(n);
  }

  /**
   * From 60 minutes on, the text names the whole hours only: two durations give
   * the same text exactly when they have the same number of whole hours. Below
   * 60, distinct minute counts give distinct texts.
   */
  lemma FormatReminderTimeSpec(m1: int, m2: int)
    ensures FormatReminderTime(119) == "1 hora"
    ensures m1 >= 60 && m2 >= 60 ==> (FormatReminderTime(m1) == FormatReminderTime(m2) <==> m1 / 60 == m2 / 60)
    ensures 0 <= m1 < 60 && 0 <= m2 < 60 ==> (FormatReminderTime(m1) == FormatReminderTime(m2) <==> m1 == m2)
  {
    if m1 >= 60 && m2 >= 60 && FormatReminderTime(m1) == FormatReminderTime(m2) {
      var h1, h2 := m1 / 60, m2 / 60;
      if h1 != 1 && h2 != 1 {
        var a, b := NatToString(h1), NatToString(h2);
        assert a + " horas" == b + " horas";
        assert |a| == |b|;
        assert a == (a + " horas")[..|a|];
        assert b == (b + " horas")[..|b|];
        NatToStringInjective(h1, h2);
      }
    }
    if 0 <= m1 < 60 && 0 <= m2 < 60 && FormatReminderTime(m1) == FormatReminderTime(m2) {
      var a, b := NatToString(m1), NatToString(m2);
      assert a + " minutos" == b + " minutos";
      assert |a| == |b|;
      assert a == (a + " minutos")[..|a|];
      assert b == (b + " minutos")[..|b|];
      NatToStringInjective(m1, m2);
    }
  }

  /** A system notification: its title, body and de-duplication tag. */
  datatype Notification = Notification(title: string, body: string, tag: string)

  /** `event-<eventId>-<reminderMinutes>`. */
  function ReminderTag(eventId: string, minutes: int): string
  {
    "event-" + eventId + "-" + IntToString(minutes)
  }

  /** The notification a reminder shows, in the application and in the service worker alike. */
  function ReminderNotification(eventId: string, eventTitle: string, minutes: int): Notification
  {
    Notification(
      "Recordatorio: " + eventTitle,
      "El evento \"" + eventTitle + "\" comienza en " + FormatReminderTime(minutes),
      ReminderTag(eventId, minutes))
  }

  predicate NoDash(s: string)
  {
    forall i :: 0 <= i < |s| ==> s[i] != '-'
  }

  /** The position of the first '-' in `s`, or `|s|` when there is none. */
  function FirstDash(s: string): nat
  {
    if s == [] || s[0] == '-' then 0 else 1 + FirstDash(s[1..])
  }

  lemma {:induction false} FirstDashAfter(a: string, rest: string)
    requires NoDash(a) && rest != [] && rest[0] == '-'
    ensures FirstDash(a + rest) == |a|
  {
    if a != [] {
      assert (a + rest)[1..] == a[1..] + rest;
      FirstDashAfter(a[1..], rest);
    }
  }

  /**
   * For generated event ids (which contain no '-') and non-negative offsets, the
   * tag determines the reminder's event and offset, so one tag stands for one
   * (event, offset) pair.
   */
  lemma TagIdentifiesReminder(id1: string, m1: nat, id2: string, m2: nat)
    requires NoDash(id1) && NoDash(id2)
    requires ReminderTag(id1, m1) == ReminderTag(id2, m2)
    ensures id1 == id2 && m1 == m2
  {
    TagShape(id1, m1);
    TagShape(id2, m2);
    DropPrefix("event-", id1 + ("-" + NatToString(m1)), id2 + ("-" + NatToString(m2)));
    DashSplit(id1, NatToString(m1), id2, NatToString(m2));
    NatToStringInjective(m1, m2);
  }

  /** The tag of a non-negative offset: the prefix, the id, a '-' and the digits. */
  lemma TagShape(id: string, m: nat)
    ensures ReminderTag(id, m) == "event-" + (id + ("-" + NatToString(m)))
  {
    assert "event-" + id + "-" + NatToString(m) == "event-" + (id + ("-" + NatToString(m)));
  }

  lemma DropPrefix(p: string, x: string, y: string)
    requires p + x == p + y
    ensures x == y
  {
    assert x == (p + x)[|p|..];
    assert y == (p + y)[|p|..];
  }

  /** Text without '-' followed by a '-' can be split back at that first '-'. */
  lemma DashSplit(a: string, x: string, b: string, y: string)
    requires NoDash(a) && NoDash(b) && a + ("-" + x) == b + ("-" + y)
    ensures a == b && x == y
  {
    var s := a + ("-" + x);
    FirstDashAfter(a, "-" + x);
    FirstDashAfter(b, "-" + y);
    assert a == s[..|a|];
    assert b == s[..|b|];
    assert x == s[|a| + 1..];
    assert y == s[|b| + 1..];
  }

  /** What `sendNotification` shows: a system notification only with permission, a toast always. */
  datatype Announcement = Announcement(system: Option<Notification>, toast: string)

  function Announce(permissionGranted: bool, eventId: string, eventTitle: string, minutes: int): (a: Announcement)
    ensures a.system.Some? <==> permissionGranted
    ensures a.system.Some? ==> a.system.value == ReminderNotification(eventId, eventTitle, minutes)
    ensures a.toast == "Recordatorio: " + eventTitle + " comienza en " + FormatReminderTime(minutes)
  {
    Announcement(
      if permissionGranted then Some(ReminderNotification(eventId, eventTitle, minutes)) else None,
      "Recordatorio: " + eventTitle + " comienza en " + FormatReminderTime(minutes))
  }

  /**
   * The toast is the same whether or not permission is granted. With
   * permission, the system notification's title opens the toast, and its body
   * ends with the same "comienza en" text the toast ends with.
   */
  lemma AnnouncementsAgree(granted: bool, eventId: string, eventTitle: string, minutes: int)
    ensures Announce(granted, eventId, eventTitle, minutes).toast == Announce(true, eventId, eventTitle, minutes).toast
    ensures var n := Announce(true, eventId, eventTitle, minutes).system.value;
      var tail := " comienza en " + FormatReminderTime(minutes);
      && Announce(true, eventId, eventTitle, minutes).toast == n.title + tail
      && |tail| <= |n.body| && n.body[|n.body| - |tail|..] == tail
  {
    var time := FormatReminderTime(minutes);
    var a := Announce(true, eventId, eventTitle, minutes);
    var n := a.system.value;
    var title := "Recordatorio: " + eventTitle;
    assert n.title == title;
    assert a.toast == title + " comienza en " + time;
    JoinTail(title, " comienza en ", time);
    assert n.body == ("El evento \"" + eventTitle + "\"") + " comienza en " + time;
    JoinTail("El evento \"" + eventTitle + "\"", " comienza en ", time);
  }

  /** Text built as `a + b + c` is `a` followed by the tail `b + c`, which it ends with. */
  lemma JoinTail(a: string, b: string, c: string)
    ensures a + b + c == a + (b + c)
    ensures var s := a + b + c; |b + c| <= |s| && s[|s| - |b + c|..] == b + c
  {
    assert a + b + c == a + (b + c);
    assert (a + (b + c))[|a|..] == b + c;
  }

  // ------------------------------------------------------ the collection

  function ReminderIds(rs: seq<Reminder>): (r: seq<string>)
    ensures |r| == |rs| && forall k :: 0 <= k < |rs| ==> r[k] == rs[k].id
  {
    seq(|rs|, k requires 0 <= k < |rs| => rs[k].id)
  }

  ghost predicate DistinctReminderIds(rs: seq<Reminder>)
  {
    forall i, j :: 0 <= i < j < |rs| ==> rs[i].id != rs[j].id
  }

  /** `{ status: "sent", sentAt: now }` merged into one reminder. */
  function MarkSent(r: Reminder, now: int): Reminder
  {
    r.(status := Sent, sentAt := Some(now))
  }

  /** Every reminder whose id is listed is marked sent at `now`; the others are kept. */
  function MarkIds(rs: seq<Reminder>, ids: seq<string>, now: int): (r: seq<Reminder>)
    ensures |r| == |rs|
    ensures forall k :: 0 <= k < |rs| ==> r[k] == if rs[k].id in ids then MarkSent(rs[k], now) else rs[k]
  {
    seq(|rs|, k requires 0 <= k < |rs| => if rs[k].id in ids then MarkSent(rs[k], now) else rs[k])
  }

  /** The query of `sendNotification`: still pending, same event and same offset. */
  function MatchesReminder(eventId: string, minutes: int): Reminder -> bool
  {
    (r: Reminder) => r.status == Pending && r.eventId == eventId && r.reminderMinutes == minutes
  }

  function MatchingIds(rs: seq<Reminder>, eventId: string, minutes: int): seq<string>
  {
    ReminderIds(Filter(rs, MatchesReminder(eventId, minutes)))
  }

  /**
   * `sendNotification` marks sent exactly the reminders that are pending and
   * match both the event and the offset; every other reminder is untouched.
   */
  lemma SendMarksExactlyMatches(rs: seq<Reminder>, eventId: string, minutes: int, now: int)
    requires DistinctReminderIds(rs)
    ensures forall k :: 0 <= k < |rs| ==>
      MarkIds(rs, MatchingIds(rs, eventId, minutes), now)[k] ==
        if rs[k].status == Pending && rs[k].eventId == eventId && rs[k].reminderMinutes == minutes
        then MarkSent(rs[k], now) else rs[k]
  {
    var p := MatchesReminder(eventId, minutes);
    var f := Filter(rs, p);
    forall k | 0 <= k < |rs| ensures rs[k].id in ReminderIds(f) <==> p(rs[k]) {
      FilterMembership(rs, p, rs[k]);
      if rs[k].id in ReminderIds(f) {
        var j :| 0 <= j < |f| && ReminderIds(f)[j] == rs[k].id;
        FilterMembership(rs, p, f[j]);
        var i :| 0 <= i < |rs| && rs[i] == f[j];
        assert i == k;
      }
    }
  }

  /** Marking an already-sent reminder again keeps it sent and only re-stamps `sentAt`. */
  lemma MarkSentAgain(rs: seq<Reminder>, id: string, first: int, second: int)
    ensures MarkIds(MarkIds(rs, [id], first), [id], second) == MarkIds(rs, [id], second)
    ensures forall k :: 0 <= k < |rs| && rs[k].id == id ==> MarkIds(rs, [id], first)[k].status == Sent
  {
  }

  /** The records of the query `status == "pending" && reminderTime > now`. */
  function IsUpcoming(now: int): Reminder -> bool
  {
    (r: Reminder) => r.status == Pending && r.reminderTime > now
  }

  /** `getPendingReminders`: its `userId` argument is never used. */
  function GetPendingReminders(rs: seq<Reminder>, user: Option<string>, userId: string, now: int): Result<seq<Reminder>, AppError>
  {
    if user.None? then Err(NoAutenticado) else Ok(Filter(rs, IsUpcoming(now)))
  }

  /**
   * Signed in, the result is every pending reminder due strictly after `now`, of
   * any user, in store order; the `userId` argument does not change it.
   */
  lemma GetPendingRemindersSpec(rs: seq<Reminder>, user: Option<string>, userId: string, otherUserId: string, now: int)
    requires user.Some?
    ensures GetPendingReminders(rs, user, userId, now).Ok?
    ensures forall r :: r in GetPendingReminders(rs, user, userId, now).value <==>
      r in rs && r.status == Pending && r.reminderTime > now
    ensures IsSubsequence(GetPendingReminders(rs, user, userId, now).value, rs)
    ensures GetPendingReminders(rs, user, otherUserId, now) == GetPendingReminders(rs, user, userId, now)
  {
    FilterIsSubsequence(rs, IsUpcoming(now));
    forall r ensures r in Filter(rs, IsUpcoming(now)) <==> r in rs && r.status == Pending && r.reminderTime > now {
      FilterMembership(rs, IsUpcoming(now), r);
    }
  }

  /** The collection after `deleteDoc`. */
  function Without(rs: seq<Reminder>, id: string): seq<Reminder>
  {
    Filter(rs, (r: Reminder) => r.id != id)
  }

  /** Deleting removes the reminder with that id, keeps every other one and their order. */
  lemma WithoutSpec(rs: seq<Reminder>, id: string)
    ensures forall r :: r in Without(rs, id) <==> r in rs && r.id != id
    ensures IsSubsequence(Without(rs, id), rs)
    ensures id !in ReminderIds(Without(rs, id))
  {
    var p := (r: Reminder) => r.id != id;
    FilterIsSubsequence(rs, p);
    forall r ensures r in Filter(rs, p) <==> r in rs && r.id != id {
      FilterMembership(rs, p, r);
    }
  }

  /** The delay of the local timer, when one is armed: only for a reminder still in the future. */
  function TimerDelay(reminderTime: int, now: int): Option<nat>
  {
    if reminderTime - now > 0 then Some(reminderTime - now) else None
  }

  // ------------------------------------------------------------ the store

  /** The `recordatorios` collection. */
  class ReminderStore {
    var recordatorios: seq<Reminder>

    ghost predicate Valid()
      reads this
    {
      DistinctReminderIds(recordatorios)
    }

    constructor ()
      ensures Valid() && recordatorios == []
    {
      recordatorios := [];
    }

    /**
     * `scheduleReminder`: stores a pending reminder whether or not its time has
     * passed, and arms the timer only for a strictly positive delay. Returns the
     * armed delay beside the result. `createdAt` is the clock read before the
     * write and `now` the one after it, which the delay is measured from.
     */
    method ScheduleReminder(user: Option<string>, eventId: string, eventTitle: string,
                            reminderTime: int, reminderMinutes: int, createdAt: int, now: int, newId: string)
      returns (r: Result<bool, AppError>, timer: Option<nat>)
      requires Valid() && newId !in ReminderIds(recordatorios)
      modifies this
      ensures Valid()
      ensures user.None? ==> r == Err(NoAutenticado) && timer == None && recordatorios == old(recordatorios)
      ensures user.Some? ==> (
        && r == Ok(true)
        && recordatorios == old(recordatorios) +
             [Reminder(newId, user.value, eventId, eventTitle, reminderTime, reminderMinutes, Pending, createdAt, None)]
        && (timer.Some? <==> reminderTime - now > 0)
        && (timer.Some? ==> timer.value == reminderTime - now))
    {
      if user.None? {
        return Err(NoAutenticado), None;
      }
      var record := Reminder(newId, user.value, eventId, eventTitle, reminderTime, reminderMinutes, Pending, createdAt, None);
      recordatorios := recordatorios + [record];
      timer := TimerDelay(reminderTime, now);
      r := Ok(true);
    }

    /** `markReminderAsSent`: the store rejects an id it does not hold. */
    method MarkReminderAsSent(id: string, now: int) returns (r: Result<(), AppError>)
      requires Valid()
      modifies this
      ensures Valid()
      ensures id in ReminderIds(old(recordatorios)) ==> r == Ok(()) && recordatorios == MarkIds(old(recordatorios), [id], now)
      ensures id !in ReminderIds(old(recordatorios)) ==> r == Err(DocumentoInexistente) && recordatorios == old(recordatorios)
    {
      if id !in ReminderIds(recordatorios) {
        return Err(DocumentoInexistente);
      }
      recordatorios := MarkIds(recordatorios, [id], now);
      r := Ok(());
    }

    /**
     * `sendNotification`: shows the announcement, then marks sent, one by one,
     * every reminder its query returned.
     */
    method SendNotification(permissionGranted: bool, eventId: string, eventTitle: string, minutes: int, now: int)
      returns (shown: Announcement)
      requires Valid()
      modifies this
      ensures Valid()
      ensures shown == Announce(permissionGranted, eventId, eventTitle, minutes)
      ensures recordatorios == MarkIds(old(recordatorios), MatchingIds(old(recordatorios), eventId, minutes), now)
    {
      shown := Announce(permissionGranted, eventId, eventTitle, minutes);
      var ids := MatchingIds(recordatorios, eventId, minutes);
      var i := 0;
      while i < |ids|
        invariant 0 <= i <= |ids|
        invariant Valid()
        invariant recordatorios == MarkIds(old(recordatorios), ids[..i], now)
        invariant ReminderIds(recordatorios) == ReminderIds(old(recordatorios))
      {
        var id := ids[i];
        MatchingIdsStored(old(recordatorios), eventId, minutes, i);
        var _ := MarkReminderAsSent(id, now);
        MarkIdsStep(old(recordatorios), ids[..i], id, now);
        assert ids[..i + 1] == ids[..i] + [id];
        i := i + 1;
      }
      assert ids[..|ids|] == ids;
    }

    /** `deleteReminder`: deleting an id that is not stored is not an error. */
    method DeleteReminder(id: string)
      requires Valid()
      modifies this
      ensures Valid()
      ensures recordatorios == Without(old(recordatorios), id)
    {
      WithoutSpec(recordatorios, id);
      SubsequenceKeepsDistinct(Without(recordatorios, id), recordatorios);
      recordatorios := Without(recordatorios, id);
    }
  }

  /** Every id the query of `sendNotification` returns is the id of a stored reminder. */
  lemma MatchingIdsStored(rs: seq<Reminder>, eventId: string, minutes: int, i: int)
    requires 0 <= i < |MatchingIds(rs, eventId, minutes)|
    ensures MatchingIds(rs, eventId, minutes)[i] in ReminderIds(rs)
  {
    var f := Filter(rs, MatchesReminder(eventId, minutes));
    FilterMembership(rs, MatchesReminder(eventId, minutes), f[i]);
    var k :| 0 <= k < |rs| && rs[k] == f[i];
    assert ReminderIds(rs)[k] == f[i].id;
  }

  /** Marking one more id after a batch is marking the batch with that id added. */
  lemma MarkIdsStep(rs: seq<Reminder>, ids: seq<string>, id: string, now: int)
    ensures MarkIds(MarkIds(rs, ids, now), [id], now) == MarkIds(rs, ids + [id], now)
  {
    var a := MarkIds(MarkIds(rs, ids, now), [id], now);
    var b := MarkIds(rs, ids + [id], now);
    forall k | 0 <= k < |rs| ensures a[k] == b[k] {
      var r := rs[k];
      assert MarkIds(rs, ids, now)[k].id == r.id;
      assert r.id in ids + [id] <==> r.id in ids || r.id == id;
    }
  }

  lemma {:induction false} SubsequenceKeepsDistinct(sub: seq<Reminder>, rs: seq<Reminder>)
    requires IsSubsequence(sub, rs) && DistinctReminderIds(rs)
    ensures DistinctReminderIds(sub)
    decreases |rs|
  {
    if sub != [] && rs != [] {
      var init := rs[..|rs| - 1];
      if sub[|sub| - 1] == rs[|rs| - 1] && IsSubsequence(sub[..|sub| - 1], init) {
        SubsequenceKeepsDistinct(sub[..|sub| - 1], init);
        SubsequenceMembers(sub[..|sub| - 1], init);
        forall i, j | 0 <= i < j < |sub| ensures sub[i].id != sub[j].id {
          if j == |sub| - 1 {
            assert sub[i] == sub[..|sub| - 1][i];
            assert sub[i] in sub[..|sub| - 1];
            var k :| 0 <= k < |init| && init[k] == sub[i];
            assert rs[k] == sub[i];
          } else {
            assert sub[i] == sub[..|sub| - 1][i] && sub[j] == sub[..|sub| - 1][j];
          }
        }
      } else {
        SubsequenceKeepsDistinct(sub, init);
      }
    }
  }

  lemma {:induction false} SubsequenceMembers<T>(sub: seq<T>, s: seq<T>)
    requires IsSubsequence(sub, s)
    ensures forall x :: x in sub ==> x in s
    decreases |s|
  {
    if sub != [] && s != [] {
      var init := s[..|s| - 1];
      if sub[|sub| - 1] == s[|s| - 1] && IsSubsequence(sub[..|sub| - 1], init) {
        SubsequenceMembers(sub[..|sub| - 1], init);
        assert sub == sub[..|sub| - 1] + [sub[|sub| - 1]];
      } else {
        SubsequenceMembers(sub, init);
      }
    }
  }
}
