/**
 * The first service worker (public/service-worker.js): activation keeps only
 * the current cache, fetches are served cache-first, and a background sync
 * shows a notification for every pending reminder that is due and reports it
 * as sent.
 */
module ServiceWorker {
  import opened Wrappers
  import opened Seqs
  import opened Strings
  import opened NotificationsService
  import opened OfflineCache

  /** The worker's own copy of `formatReminderTime`. */
  function FormatReminderTime(minutes: int): string
  {
    if minutes >= 60 then
      var hours := minutes / 60;
      if hours == 1 then "1 hora" else IntToString(hours) + " horas"
    else IntToString(minutes) + " minutos"
  }

  /** The worker's copy agrees with the application's on every input. */
  lemma FormatMatchesApplication(minutes: int)
    ensures FormatReminderTime(minutes) == NotificationsService.FormatReminderTime(minutes)
  {
  }

  /** The notification the worker shows for a due reminder. */
  function WorkerNotification(r: Reminder): Notification
  {
    Notification(
      "Recordatorio: " + r.eventTitle,
      "El evento \"" + r.eventTitle + "\" comienza en " + FormatReminderTime(r.reminderMinutes),
      "event-" + r.eventId + "-" + IntToString(r.reminderMinutes))
  }

  /** It is the application's notification for the same reminder, tag `event-<eventId>-<reminderMinutes>` included. */
  lemma WorkerNotificationMatchesApplication(r: Reminder)
    ensures WorkerNotification(r) == ReminderNotification(r.eventId, r.eventTitle, r.reminderMinutes)
    ensures WorkerNotification(r).tag == ReminderTag(r.eventId, r.reminderMinutes)
  {
    FormatMatchesApplication(r.reminderMinutes);
  }

  /** `new Date(reminder.reminderTime) <= now`. */
  function IsDue(now: int): Reminder -> bool
  {
    (r: Reminder) => r.reminderTime <= now
  }

  function IdOf(r: Reminder): string
  {
    r.id
  }

  /** The reminders the loop acts on: the due ones, in the order received. */
  function DueReminders(reminders: Option<seq<Reminder>>, now: int): seq<Reminder>
  {
    if reminders.None? then [] else Filter(reminders.value, IsDue(now))
  }

  /** Exactly the due reminders are acted on; the later ones are left alone. */
  lemma DueRemindersSpec(reminders: seq<Reminder>, now: int)
    ensures forall r :: r in DueReminders(Some(reminders), now) <==> r in reminders && r.reminderTime <= now
    ensures IsSubsequence(DueReminders(Some(reminders), now), reminders)
  {
    FilterIsSubsequence(reminders, IsDue(now));
    forall r ensures r in DueReminders(Some(reminders), now) <==> r in reminders && r.reminderTime <= now {
      FilterMembership(reminders, IsDue(now), r);
    }
  }

  /**
   * `checkPendingReminders`: `reminders` is what the pending-reminders endpoint
   * returned (`None` when the request or its decoding failed). Each due
   * reminder is shown and then reported as sent, in order; `marked` lists the
   * ids reported.
   */
  method CheckPendingReminders(reminders: Option<seq<Reminder>>, now: int)
    returns (shown: seq<Notification>, marked: seq<string>)
    ensures shown == Map(DueReminders(reminders, now), WorkerNotification)
    ensures marked == Map(DueReminders(reminders, now), IdOf)
  {
    shown, marked := [], [];
    if reminders.None? {
      return;
    }
    var rs := reminders.value;
    var i := 0;
    while i < |rs|
      invariant 0 <= i <= |rs|
      invariant shown == Map(Filter(rs[..i], IsDue(now)), WorkerNotification)
      invariant marked == Map(Filter(rs[..i], IsDue(now)), IdOf)
    {
      assert rs[..i + 1][..i] == rs[..i];
      var reminder := rs[i];
      if reminder.reminderTime <= now {
        shown := shown + [WorkerNotification(reminder)];
        marked := marked + [reminder.id];
      }
      i := i + 1;
    }
    assert rs[..i] == rs;
  }

  /** The `activate` handler: every cache but `CACHE_NAME` is deleted. */
  method OnActivate(storage: CacheStorage)
    modifies storage
    ensures storage.caches == Purged(old(storage.caches), [CACHE_NAME])
  {
    storage.Activate([CACHE_NAME]);
  }

  /** The `fetch` handler: every request is answered cache-first. */
  method OnFetch(storage: CacheStorage, req: Request, network: Option<Response>) returns (answer: Option<Response>)
    modifies storage
    ensures var s := CacheFirst(old(storage.caches), req, network);
      answer == s.answer && storage.caches == s.caches
  {
    answer := storage.Respond(req, network);
  }
}
