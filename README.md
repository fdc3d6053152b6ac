# EliteState in Dafny

EliteState is a real-estate agency front-end. A signed-in agent keeps **zones**
(`zonas`), each holding **properties** (`propiedades`), and **reminders**
(`recordatorios`) for calendar events. Two service workers make the site work
offline and show reminder notifications. This project models the logic of that
application over an in-memory document store and proves what it promises:

- `firestore.dfy`: the document store as the application uses it. A collection
  is an ordered sequence of documents with distinct generated ids. The module
  covers listing, lookup, `addDoc` and `updateDoc`, which is a field merge that
  fails when the document is missing. `deleteDoc`, which always succeeds, is
  modelled on the reminders collection.
- `zonas_service.dfy`: the zone and property service. Every call that names a
  zone runs the same guard, with its checks in a fixed order: signed in, then the
  zone exists, then the zone is the caller's. The zone-free calls, `getZonas` and
  `createZona`, check only that a user is signed in. The reads are functions. The writes are methods of
  `ZoneStore`, each proved against a transition function.
- `notifications_service.dfy`: reminders and their life cycle from "pending" to
  "sent". Also the notification text and tag, and the decision to arm a local
  timer.
- `estadisticas.dfy`: the statistics page's counting loop, proved against a
  summary function whose consistency is proved.
- `zonas_page.dfy`, `catalogo.dfy`: the zone page and the zone catalogue. They
  cover the location search, the draft form, the blank-name guard and the
  per-zone property counts.
- `propiedad_modal.dfy`, `detalle_propiedad.dfy`: the view/edit/save/cancel
  state of the property modal and of the property detail page.
- `offline_cache.dfy`, `service_worker.dfy`, `sw.dfy`: the cache policy the
  two workers share. It has these parts:
  - activation purges every cache not kept;
  - requests are served cache-first;
  - a response is stored only when it has status 200 and type "basic";
  - `public/sw.js` also bypasses some URLs;
  - both workers notify about reminders, and `public/sw.js` handles the
    skip-waiting message.
- `propiedad_pdf.dfy`: the layout of the property PDF. It covers the text
  cursor, image-format detection, aspect-fit scaling and the page-break rule.
- `strings.dfy`, `seqs.dfy`, `wrappers.dfy`: the JavaScript string and array
  operations the rest relies on (`toLowerCase`, `includes`, `trim`, decimal
  rendering, `filter`, `map`), with their lemmas.

The current user, clocks, generated ids, network responses and upload URLs are
parameters. React state is the fields of one class per page or component. An
event handler is a method on that class. An awaited call that throws ends the
handler, and the state set before it stays.

Some behaviour of the code is worth knowing:

- `getPendingReminders` ignores its `userId` argument, so it returns every
  user's pending reminders.
- The detail page reads and writes a property with no sign-in or ownership
  check.
- Saving the property modal's form writes the `id` field that the read added
  back into the stored record.
- A zone named with surrounding blanks is stored untrimmed.

Each of these is stated as a lemma below.

## Model

| member | source | states |
|---|---|---|
| Firestore.WithId | EliteState/src/firebase/zonasService.js:28 | `{id, ...data}` has the data's fields plus `id`; the document id shows only when the data has no `id` of its own |
| Firestore.ObjectsMembership | EliteState/src/firebase/zonasService.js:28 | an object is listed exactly when it is the object of some stored document |
| Firestore.FindPresent | EliteState/src/firebase/zonasService.js:109-112 | `getDoc` finds a document exactly when its id is stored |
| Firestore.FindAt | EliteState/src/firebase/zonasService.js:109-113 | with distinct ids, a lookup returns the data of the one document with that id |
| Firestore.Merge | EliteState/src/firebase/zonasService.js:201-202 | `updateDoc` merges the fields into the target document only; ids and order are kept |
| Firestore.MergeIdempotent | EliteState/src/firebase/zonasService.js:181-182 | merging the same fields twice equals merging them once |
| Firestore.AppendFresh | EliteState/src/firebase/zonasService.js:85-89 | `addDoc` under a fresh id keeps the ids distinct |
| ZonasService.CheckZona | EliteState/src/firebase/zonasService.js:47-60 | the guard succeeds only for a signed-in user |
| ZonasService.GuardOrder | EliteState/src/firebase/zonasService.js:47-60 | signed out → "Usuario no autenticado"; else missing zone → "Zona no encontrada"; else the zone's data exactly when its `userId` is the caller's, and a permission error otherwise |
| ZonasService.GetZonasExactlyOwned | EliteState/src/firebase/zonasService.js:21-29 | `getZonas` returns exactly the zones whose `userId` is the caller's, each with its id, in store order |
| ZonasService.GetPropiedadPorIdSpec | EliteState/src/firebase/zonasService.js:109-116 | once the zone is owned: "Propiedad no encontrada" exactly when the id is absent, otherwise the stored record with its id |
| ZonasService.GetZonaByIdSpec | EliteState/src/firebase/zonasService.js:206-222 | `getZonaById` succeeds exactly when the stored zone is the caller's, and the result carries the caller as `userId` |
| ZonasService.PropiedadRecord | EliteState/src/firebase/zonasService.js:85-89 | the stored property has the caller's fields plus `userId` and `createdAt`, which override any fields of those names |
| ZonasService.SignedOutFailsEverywhere | EliteState/src/firebase/zonasService.js:22-23 | with no user every operation throws "Usuario no autenticado" and nothing is written |
| ZonasService.GuardFailureIgnoresProperties | EliteState/src/firebase/zonasService.js:46-65 | when the guard fails, the outcome is the guard's error whatever the sub-collections hold |
| ZonasService.UpdateSucceedsIff | EliteState/src/firebase/zonasService.js:185-203 | an update succeeds exactly when the guard passes and the property exists |
| ZonasService.UpdateMergesIntoTarget | EliteState/src/firebase/zonasService.js:201-202 | a successful update merges into the target property only; zones, other zones and other properties are unchanged |
| ZonasService.UpdateEstadoOnlyEstado | EliteState/src/firebase/zonasService.js:161-162 | `updateEstadoPropiedad` changes the `estado` field of the target and nothing else |
| ZonasService.ArchiveSetsOnlyArchived | EliteState/src/firebase/zonasService.js:181-182 | archiving sets `archived = true` and keeps every other field |
| ZonasService.ArchiveIdempotent | EliteState/src/firebase/zonasService.js:181-182 | archiving twice leaves the store as archiving once |
| ZonasService.AccessIgnoresPropertyOwner | EliteState/src/firebase/zonasService.js:97-107 | rewriting a property's own `userId` never changes whether it can be read or updated |
| ZonasService.CreatePropiedadForcesOwner | EliteState/src/firebase/zonasService.js:84-89 | a created property is appended under the new id, owned by the caller and stamped with `createdAt` |
| ZonasService.ZoneStore.CreateZona | EliteState/src/firebase/zonasService.js:32-43 | the store becomes the `createZona` transition (unchanged on error); the result is the new id or the error |
| ZonasService.ZoneStore.CreatePropiedad | EliteState/src/firebase/zonasService.js:68-91 | the store becomes the guarded `createPropiedad` transition; ids stay distinct |
| ZonasService.ZoneStore.UpdateDoc | EliteState/src/components/DetallePropiedad.jsx:31-32 | an unguarded `updateDoc`: the merge, or not-found with the store unchanged |
| ZonasService.ZoneStore.UpdateEstadoPropiedad | EliteState/src/firebase/zonasService.js:145-163 | the store becomes the guarded merge of `{estado}`; the result reports the guard's or the store's error |
| ZonasService.ZoneStore.ArchivePropiedad | EliteState/src/firebase/zonasService.js:165-183 | the store becomes the guarded merge of `{archived: true}` |
| ZonasService.ZoneStore.UpdatePropiedad | EliteState/src/firebase/zonasService.js:185-203 | the store becomes the guarded merge of the caller's fields |
| NotificationsService.FormatReminderTimeSpec | EliteState/src/firebase/notificationsService.js:103-110 | 119 gives "1 hora"; from 60 on, texts are equal exactly when the whole hours are; below 60, exactly when the minutes are |
| NotificationsService.TagIdentifiesReminder | EliteState/src/firebase/notificationsService.js:70 | for ids without '-', the tag `event-<id>-<minutes>` determines the event and the offset |
| NotificationsService.AnnouncementsAgree | EliteState/src/firebase/notificationsService.js:66-80 | the toast does not depend on the permission; with permission the system title opens the toast and the system body ends with the same "comienza en" text |
| NotificationsService.SendMarksExactlyMatches | EliteState/src/firebase/notificationsService.js:84-95 | exactly the pending reminders with the same event and offset are marked sent; every other reminder is untouched |
| NotificationsService.MarkSentAgain | EliteState/src/firebase/notificationsService.js:142-148 | marking again keeps `sent` and only re-stamps `sentAt` |
| NotificationsService.GetPendingRemindersSpec | EliteState/src/firebase/notificationsService.js:113-134 | the pending reminders due strictly after now, of any user, in order; the `userId` argument changes nothing |
| NotificationsService.WithoutSpec | EliteState/src/firebase/notificationsService.js:156-160 | deleting removes exactly the reminder with that id and keeps the order of the rest |
| NotificationsService.ReminderStore.ScheduleReminder | EliteState/src/firebase/notificationsService.js:23-60 | signed out: an error and nothing stored; signed in: exactly one pending record appended, even for a past time, and a timer armed exactly when the delay is positive |
| NotificationsService.ReminderStore.MarkReminderAsSent | EliteState/src/firebase/notificationsService.js:142-153 | a stored id is marked sent; an unknown id fails and changes nothing |
| NotificationsService.ReminderStore.SendNotification | EliteState/src/firebase/notificationsService.js:63-100 | shows the announcement, then marks sent exactly the matching pending reminders |
| NotificationsService.ReminderStore.DeleteReminder | EliteState/src/firebase/notificationsService.js:156-164 | the collection loses the reminder with that id and nothing else |
| Estadisticas.CountEstadoBound | EliteState/src/pages/Estadisticas.jsx:54-57 | a property counts under at most one `estado`, so sales plus rentals never exceed the properties |
| Estadisticas.SummaryConsistent | EliteState/src/pages/Estadisticas.jsx:45-72 | venta + renta ≤ total; zones with properties = chart entries ≤ zones; each entry has properties and venta + renta ≤ its count; the entries add up to the totals |
| Estadisticas.InertLoadIgnored | EliteState/src/pages/Estadisticas.jsx:73-75 | a zone whose load throws or is empty changes no counter |
| Estadisticas.ChartEntriesFollowZones | EliteState/src/pages/Estadisticas.jsx:63-72 | every zone with properties has its entry in `zonasConDatos` |
| Estadisticas.ChartEntriesComeFromZones | EliteState/src/pages/Estadisticas.jsx:63-72 | every entry of `zonasConDatos` belongs to a zone with properties |
| Estadisticas.CountEstados | EliteState/src/pages/Estadisticas.jsx:52-57 | the inner loop counts exactly the "Venta" and the "Renta" properties |
| Estadisticas.Aggregate | EliteState/src/pages/Estadisticas.jsx:39-76 | the zone loop computes the summary of every zone's load, with its bounds |
| Estadisticas.VisitZona | EliteState/src/pages/Estadisticas.jsx:46-75 | one zone's visit adds its counts and, when it has properties, its chart entry; a load that throws changes nothing |
| Estadisticas.EstadisticasPage.Show | EliteState/src/pages/Estadisticas.jsx:78-83 | every counter shows the summary and the zones without properties are the zones minus those with properties |
| Estadisticas.EstadisticasPage.FetchData | EliteState/src/pages/Estadisticas.jsx:33-88 | loading ends in every case; listing failure keeps the counters; otherwise they are the summary, and with-plus-without equals the number of zones |
| ZonasPage.FilterPropiedadesSpec | EliteState/src/pages/Zonas.jsx:69-71 | throws exactly when a listed property has no string location; otherwise keeps exactly the properties whose lower-cased location includes the lower-cased search, as an order-preserving subsequence |
| ZonasPage.EmptySearchKeepsAll | EliteState/src/pages/Zonas.jsx:69-71 | an empty search keeps every property |
| ZonasPage.OnlyUbicacionSearched | EliteState/src/pages/Zonas.jsx:69-71 | changing any field other than `ubicacion` does not change which properties are kept |
| ZonasPage.CreateThenListAppends | EliteState/src/pages/Zonas.jsx:47-61 | after a successful create, re-reading the zone lists the old properties followed by the new one |
| ZonasPage.ZonaPage.FetchPropiedades | EliteState/src/pages/Zonas.jsx:29-32 | the list becomes the zone's properties when the read succeeds |
| ZonasPage.ZonaPage.SetDraftField | EliteState/src/pages/Zonas.jsx:108-113 | an input sets exactly one draft field |
| ZonasPage.ZonaPage.HandleImageUpload | EliteState/src/pages/Zonas.jsx:37-43 | only `imageUrl` changes, and only when a file was chosen |
| ZonasPage.ZonaPage.HandleSearch | EliteState/src/pages/Zonas.jsx:65-67 | the search text is replaced and nothing else changes |
| ZonasPage.ZonaPage.OpenModal | EliteState/src/pages/Zonas.jsx:88 | the form opens and nothing else changes |
| ZonasPage.ZonaPage.ResetDraft | EliteState/src/pages/Zonas.jsx:48-59 | the draft becomes the empty form and nothing else changes |
| ZonasPage.ZonaPage.HandleAgregarPropiedad | EliteState/src/pages/Zonas.jsx:45-63 | on a failed create nothing changes; otherwise the draft is reset, the list is the old one plus the new property, and the form closes |
| Catalogo.Decorate | EliteState/src/pages/Catalogo.jsx:23-26 | each zone keeps all its fields and gains `propiedadesCount` |
| Catalogo.BlankIffWhitespace | EliteState/src/pages/Catalogo.jsx:34 | a name is blank exactly when every character is white space |
| Catalogo.ListingCountsStoredProperties | EliteState/src/pages/Catalogo.jsx:18-29 | the catalogue lists every owned zone in order, each counting exactly the properties stored under it |
| Catalogo.CreatedZoneKeepsTypedName | EliteState/src/pages/Catalogo.jsx:34-35 | a created zone is stored with the name exactly as typed |
| Catalogo.CatalogoPage.FetchZonas | EliteState/src/pages/Catalogo.jsx:18-30 | the list is replaced by the decorated listing when it loads |
| Catalogo.CatalogoPage.HandleAgregarZona | EliteState/src/pages/Catalogo.jsx:32-38 | a blank name changes nothing; otherwise the typed name is created, then the input is cleared and the list reloaded |
| PropiedadModal.SaveLoadedFormStoresDisplayedObject | EliteState/src/components/PropiedadModal.jsx:22-24 | saving the form as loaded succeeds, and the stored record is then the displayed object, `id` included |
| PropiedadModal.PropiedadModalView.constructor | EliteState/src/components/PropiedadModal.jsx:8-18 | starts in view mode with an empty form and nothing loaded |
| PropiedadModal.PropiedadModalView.FetchPropiedad | EliteState/src/components/PropiedadModal.jsx:21-25 | a successful read sets both the property and the form to it |
| PropiedadModal.PropiedadModalView.HandleEditClick | EliteState/src/components/PropiedadModal.jsx:30 | enters edit mode and changes nothing else |
| PropiedadModal.PropiedadModalView.HandleCancelClick | EliteState/src/components/PropiedadModal.jsx:32-35 | leaves edit mode and restores the form to the loaded snapshot |
| PropiedadModal.PropiedadModalView.HandleChange | EliteState/src/components/PropiedadModal.jsx:37-39 | sets exactly the named field and keeps the rest |
| PropiedadModal.PropiedadModalView.HandleSave | EliteState/src/components/PropiedadModal.jsx:41-44 | merges the form into the store; leaves edit mode only on success; the snapshot is not refreshed |
| PropiedadModal.PropiedadModalView.PrimaryButton | EliteState/src/components/PropiedadModal.jsx:107-111 | saves while editing, otherwise enters edit mode without writing |
| PropiedadModal.PropiedadModalView.HandleArchive | EliteState/src/components/PropiedadModal.jsx:46-49 | archives, then closes the modal; a failure leaves it open |
| DetallePropiedad.ReadIgnoresOwnership | EliteState/src/components/DetallePropiedad.jsx:15-20 | the page finds a property exactly when it is stored, whoever is signed in, and shows the record the guarded read would |
| DetallePropiedad.SavedBufferIsStored | EliteState/src/components/DetallePropiedad.jsx:30-35 | saving a buffer with every stored field succeeds and the stored document is then the buffer |
| DetallePropiedad.DetallePage.FetchPropiedad | EliteState/src/components/DetallePropiedad.jsx:14-23 | a missing document leaves `propiedad` as it was |
| DetallePropiedad.DetallePage.HandleEditar | EliteState/src/components/DetallePropiedad.jsx:25-28 | copies the shown property into the buffer and opens the dialog |
| DetallePropiedad.DetallePage.SetField | EliteState/src/components/DetallePropiedad.jsx:96-101 | an input sets exactly one buffer field |
| DetallePropiedad.DetallePage.HandleImageUpload | EliteState/src/components/DetallePropiedad.jsx:214-223 | only the buffer's `imageUrl` changes, and only when a file was chosen |
| DetallePropiedad.DetallePage.Cancel | EliteState/src/components/DetallePropiedad.jsx:229-234 | closes the dialog; the shown property is unchanged |
| DetallePropiedad.DetallePage.HandleActualizarPropiedad | EliteState/src/components/DetallePropiedad.jsx:30-35 | writes the buffer; on success shows it and closes the dialog; on failure the page is unchanged |
| OfflineCache.PutThenHit | EliteState/public/service-worker.js:63-66 | a stored response answers its URL, and the answer for every other URL stays |
| OfflineCache.CacheFirstSpec | EliteState/public/service-worker.js:45-73 | a hit answers without the network; a miss answers with the network's own response; the caches change only by storing a cacheable GET response |
| OfflineCache.CachedResponseServedNext | EliteState/public/service-worker.js:53-68 | after a cacheable miss, the next request for the URL is served from the cache |
| OfflineCache.PurgedSpec | EliteState/public/service-worker.js:29-42 | activation keeps exactly the caches whose name is kept, in order |
| OfflineCache.SingleKeepListIsNameTest | EliteState/public/sw.js:42-44 | keeping `[CACHE_NAME]` equals deleting every other name |
| OfflineCache.CacheStorage.Activate | EliteState/public/service-worker.js:32-39 | deleting name by name leaves exactly the purged caches |
| OfflineCache.CacheStorage.Respond | EliteState/public/service-worker.js:46-72 | the handler's answer and caches are those of the cache-first policy |
| ServiceWorker.FormatMatchesApplication | EliteState/public/service-worker.js:153-160 | the worker's `formatReminderTime` equals the application's on every input |
| ServiceWorker.WorkerNotificationMatchesApplication | EliteState/public/service-worker.js:128-131 | the worker's notification is the application's, tag `event-<eventId>-<reminderMinutes>` included |
| ServiceWorker.DueRemindersSpec | EliteState/public/service-worker.js:124-126 | exactly the reminders due at or before now are acted on, in order |
| ServiceWorker.CheckPendingReminders | EliteState/public/service-worker.js:118-151 | one notification and one sent report per due reminder, in order; nothing for a failed request |
| ServiceWorker.OnActivate | EliteState/public/service-worker.js:29-42 | every cache other than `CACHE_NAME` is deleted |
| ServiceWorker.OnFetch | EliteState/public/service-worker.js:45-73 | every request is answered cache-first |
| Sw.FirstColon | EliteState/public/sw.js:18 | the position of the first ':' |
| Sw.IsValidUrlIff | EliteState/public/sw.js:16-23 | `isValidUrl` holds exactly when the URL starts with "http:" or "https:" in any case |
| Sw.ExtensionUrlsBypassed | EliteState/public/sw.js:54-63 | extension URLs are never handled |
| Sw.OnFetch | EliteState/public/sw.js:52-85 | bypassed URLs are left to the browser with the caches unchanged; the rest are served cache-first |
| Sw.OnActivate | EliteState/public/sw.js:37-49 | every cache whose name differs from `CACHE_NAME` is deleted |
| Sw.CheckReminders | EliteState/public/sw.js:95-121 | one notification per returned reminder, in order, with no due-time test, up to the first rejected `showNotification`, which ends the loop; nothing when the request fails |
| Sw.Lifecycle.OnMessage | EliteState/public/sw.js:135-139 | only a `SKIP_WAITING` message makes the worker skip waiting |
| PropiedadPdf.LayoutText | EliteState/src/components/PropiedadPDF.jsx:25-47 | fields start at 35, each 7 per line plus 5 below the previous; the cursor ends at 85 plus 7 per line |
| PropiedadPdf.ImageFormatSpec | EliteState/src/components/PropiedadPDF.jsx:100-105 | PNG exactly for the png prefix, WEBP exactly for the webp prefix, JPEG otherwise |
| PropiedadPdf.Fit | EliteState/src/components/PropiedadPDF.jsx:81-88 | the scaled image fits 120 by 90, keeps its proportions, and is unchanged when it already fits |
| PropiedadPdf.StepKeepsLayout | EliteState/src/components/PropiedadPDF.jsx:77-115 | one image keeps the layout invariant: on the page, centred, in source order, below the previous image |
| PropiedadPdf.RunInvariant | EliteState/src/components/PropiedadPDF.jsx:62-116 | after any number of images every drawn image fits its page above the bottom margin, came from an image that loaded and was added, and has its source's format |
| PropiedadPdf.LayoutImages | EliteState/src/components/PropiedadPDF.jsx:49-117 | no images page without extras; otherwise the loop's result is the layout run, every image well placed |
| Strings.IncludesIff | EliteState/src/pages/Zonas.jsx:70 | `includes` holds exactly when the text occurs at some position |
| Strings.TrimEmptyIff | EliteState/src/pages/Catalogo.jsx:34 | `trim() === ""` exactly when every character is white space |
| Strings.NatToStringRoundTrip | EliteState/src/firebase/notificationsService.js:106-108 | the decimal text of a number reads back as that number |

## Left out

- Firestore, Firebase Auth and Storage are an in-memory store with the current user as a parameter. Network failures, latency and security rules are not modelled.
- Firestore's listing order is abstracted as the collection order. Generated ids are parameters, with a freshness precondition.
- Timestamps and clocks are parameters: ISO strings for `createdAt` and integer milliseconds for reminders. `Timestamp` conversion is not modelled.
- Async behaviour and concurrency are modelled sequentially: awaits, `Promise.all`, the unawaited `forEach(async …)` in `sendNotification`, and the fire-and-forget `caches.open().then(put)`. Races between tabs are not modelled.
- `uploadImage` is a URL parameter; `src/firebase/storageService.js` is not part of this model.
- Timers, system notifications, toasts and `clients.openWindow` are not modelled. Only the decisions are: arm iff the delay is positive, notify iff due, and what is shown.
- The service workers' `install` handlers (`cache.addAll`) are not modelled, nor are the push and notification-click handlers.
- ServiceWorker.CheckPendingReminders: every due reminder is reported sent. A network failure of the PUT, which would end the loop, is not modelled. (`showNotification` is not awaited in that worker, so its failure cannot end the loop.)
- Sw.Protocol: `new URL` parsing is reduced to reading the scheme. It does not strip whitespace, resolve relative URLs or reject malformed authorities.
- Strings.Lower: `toLowerCase` is modelled for ASCII letters only.
- Strings.Trim: the white-space set is written out by code point. Grapheme and normalisation issues are ignored.
- Floating point is modelled with reals: image scaling and centring in the PDF. `generateColor`'s hue arithmetic in the statistics page is not modelled.
- jsPDF rendering, `splitTextToSize` and image loading are not modelled:
  - wrapped line counts are inputs;
  - an image's load outcome is an input, where a timed-out load reports 0 by 0.
- NotificationsService.FormatReminderTime: minutes are integers; fractional minutes are not modelled.
- Firestore.WithId: when stored data has its own `id` field, the object's `id` is that field. The contract states only that the data's fields are kept.
- DetallePropiedad.DetallePage.HandleEditar, SetField, HandleImageUpload and HandleActualizarPropiedad require a buffer or a shown property. The page renders those controls only then; calling them earlier would throw in the component.
- PropiedadModal.PropiedadModalView.HandleCancelClick requires a loaded property. Before the load the source would set `formData` to null, which then crashes rendering.
- Rendering is not modelled: JSX, the loading view, charts and navigation.
- ZonasService.GetPropiedadDetalle is the same code as `getPropiedadPorId`. It is defined as that function and needs no lemmas of its own.
