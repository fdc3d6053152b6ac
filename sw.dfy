/**
 * The second service worker (public/sw.js): it leaves non-http(s) requests
 * and requests to Firebase, Google APIs or browser extensions to the browser,
 * serves every other request cache-first, keeps only the current cache on
 * activation, shows one notification per reminder a sync returns, and skips
 * waiting when a page asks it to.
 */
module Sw {
  import opened Wrappers
  import opened Seqs
  import opened Strings
  import opened Firestore
  import opened OfflineCache

  predicate IsAsciiAlpha(c: char)
  {
    'a' <= c <= 'z' || 'A' <= c <= 'Z'
  }

  /** A character allowed in a URL scheme after its first letter. */
  predicate IsSchemeChar(c: char)
  {
    IsAsciiAlpha(c) || '0' <= c <= '9' || c == '+' || c == '-' || c == '.'
  }

  /** The position of the first ':' in `s`, or `|s|` when there is none. */
  function FirstColon(s: string): (k: nat)
    ensures k <= |s|
    ensures forall j :: 0 <= j < k ==> s[j] != ':'
    ensures k < |s| ==> s[k] == ':'
  {
    if s == [] || s[0] == ':' then 0 else 1 + FirstColon(s[1..])
  }

  /**
   * `new URL(url).protocol`: the scheme (the text before the first ':' when it
   * is a letter followed by letters, digits, '+', '-' or '.'), lower-cased, with
   * its ':'. `None` stands for the exception thrown for a string with no scheme.
   */
  function Protocol(url: string): Option<string>
  {
    var k := FirstColon(url);
    if k == |url| || k == 0 || !IsAsciiAlpha(url[0]) then None
    else if exists j :: 0 <= j < k && !IsSchemeChar(url[j]) then None
    else Some(Lower(url[..k]) + ":")
  }

  /** `isValidUrl`. */
  predicate IsValidUrl(url: string)
  {
    Protocol(url) == Some("http:") || Protocol(url) == Some("https:")
  }

  /** Whether the fetch handler returns without answering, leaving the request to the browser. */
  predicate Bypass(url: string)
  {
    || !IsValidUrl(url)
    || Includes(url, "firebase")
    || Includes(url, "googleapis")
    || Includes(url, "chrome-extension")
  }

  /** A lower-cased letter is that letter in either case. */
  lemma LowerCharLetter(c: char, l: char)
    requires 'a' <= l <= 'z' && LowerChar(c) == l
    ensures IsAsciiAlpha(c) && c != ':'
  {
  }

  /** The scheme `w` (letters only) followed by ':' starts `url`, in any case. */
  lemma {:induction false} ProtocolOfPrefix(url: string, w: string)
    requires |w| > 0 && forall i :: 0 <= i < |w| ==> 'a' <= w[i] <= 'z'
    requires |w| < |url| && Lower(url)[..|w| + 1] == w + ":"
    ensures Protocol(url) == Some(w + ":")
  {
    var n := |w|;
    forall j | 0 <= j < n ensures IsAsciiAlpha(url[j]) && url[j] != ':' {
      assert Lower(url)[j] == w[j];
      LowerCharLetter(url[j], w[j]);
    }
    assert Lower(url)[n] == ':';
    assert url[n] == ':';
    assert FirstColon(url) == n;
    assert Lower(url[..n]) == Lower(url)[..n] == w;
  }

  /** A protocol of the given text means the URL starts with that text, in any case. */
  lemma ProtocolPrefix(url: string, p: string)
    requires Protocol(url) == Some(p)
    ensures |p| <= |url| && Lower(url)[..|p|] == p
  {
    var k := FirstColon(url);
    assert p == Lower(url[..k]) + ":";
    assert Lower(url)[..k + 1] == Lower(url[..k]) + [LowerChar(url[k])];
  }

  /** `isValidUrl` holds exactly for URLs that begin with "http:" or "https:", in any case. */
  lemma IsValidUrlIff(url: string)
    ensures IsValidUrl(url) <==>
      (|url| >= 5 && Lower(url)[..5] == "http:") || (|url| >= 6 && Lower(url)[..6] == "https:")
  {
    if Protocol(url) == Some("http:") {
      ProtocolPrefix(url, "http:");
    } else if Protocol(url) == Some("https:") {
      ProtocolPrefix(url, "https:");
    }
    if |url| >= 5 && Lower(url)[..5] == "http:" {
      ProtocolOfPrefix(url, "http");
    }
    if |url| >= 6 && Lower(url)[..6] == "https:" {
      ProtocolOfPrefix(url, "https");
    }
  }

  /** Browser-extension URLs are never handled: their scheme is not http(s). */
  lemma ExtensionUrlsBypassed(url: string)
    requires |url| >= 17 && Lower(url)[..17] == "chrome-extension:"
    ensures Bypass(url)
  {
    var l := Lower(url);
    assert l[0] == l[..17][0] == 'c';
    assert l[..5] != "http:" by { assert l[..5][0] == 'c'; }
    assert l[..6] != "https:" by { assert l[..6][0] == 'c'; }
    IsValidUrlIff(url);
  }

  /** What the fetch handler does with a request. */
  datatype FetchOutcome = NotHandled | Handled(answer: Option<Response>)

  /** The fetch handler: bypassed requests leave the caches alone; the rest are served cache-first. */
  method OnFetch(storage: CacheStorage, req: Request, network: Option<Response>) returns (o: FetchOutcome)
    modifies storage
    ensures Bypass(req.url) ==> o == NotHandled && storage.caches == old(storage.caches)
    ensures !Bypass(req.url) ==>
      var s := CacheFirst(old(storage.caches), req, network);
      o == Handled(s.answer) && storage.caches == s.caches
  {
    if !IsValidUrl(req.url) {
      return NotHandled;
    }
    if Includes(req.url, "firebase") || Includes(req.url, "googleapis") || Includes(req.url, "chrome-extension") {
      return NotHandled;
    }
    var answer := storage.Respond(req, network);
    o := Handled(answer);
  }

  /** The `activate` handler: every cache whose name differs from `CACHE_NAME` is deleted. */
  method OnActivate(storage: CacheStorage)
    modifies storage
    ensures storage.caches == Filter(old(storage.caches), (c: NamedCache) => c.name == CACHE_NAME)
  {
    SingleKeepListIsNameTest(storage.caches);
    storage.Activate([CACHE_NAME]);
  }

  /** A reminder as the check endpoint returns it. */
  datatype SwReminder = SwReminder(title: string, description: string, url: Option<string>)

  /** A shown notification: title, body and the URL a click opens. */
  datatype SwNotification = SwNotification(title: string, body: string, url: Option<string>)

  function ShowOf(r: SwReminder): SwNotification
  {
    SwNotification(r.title, r.description, r.url)
  }

  /** How many reminders are shown: all of them, or those before the first rejected show. */
  function ShownCount(n: nat, failsAt: Option<nat>): (k: nat)
    ensures k <= n
    ensures failsAt.None? ==> k == n
    ensures failsAt.Some? ==> k == if failsAt.value < n then failsAt.value else n
  {
    if failsAt.Some? && failsAt.value < n then failsAt.value else n
  }

  /**
   * `checkReminders`: one notification per returned reminder, in order, with
   * no due-time test; `None` stands for a failed request, which shows nothing.
   * `failsAt` is the index of the first `showNotification` that rejects (as it
   * does without notification permission): the rejection reaches the catch and
   * ends the loop, so only the reminders before it are shown.
   */
  method CheckReminders(reminders: Option<seq<SwReminder>>, failsAt: Option<nat>) returns (shown: seq<SwNotification>)
    ensures reminders.None? ==> shown == []
    ensures reminders.Some? ==> |shown| == ShownCount(|reminders.value|, failsAt)
    ensures reminders.Some? ==> forall i :: 0 <= i < |shown| ==> shown[i] == ShowOf(reminders.value[i])
  {
    shown := [];
    if reminders.None? {
      return;
    }
    var rs := reminders.value;
    var i := 0;
    while i < |rs|
      invariant 0 <= i <= |rs|
      invariant failsAt.Some? ==> i <= failsAt.value
      invariant |shown| == i
      invariant forall j :: 0 <= j < i ==> shown[j] == ShowOf(rs[j])
    {
      if failsAt == Some(i) {
        return;
      }
      shown := shown + [ShowOf(rs[i])];
      i := i + 1;
    }
  }

  /** `event.data && event.data.type === 'SKIP_WAITING'`; `None` stands for a falsy message. */
  predicate IsSkipWaiting(data: Option<Doc>)
  {
    data.Some? && "type" in data.value && data.value["type"] == Str("SKIP_WAITING")
  }

  /** The worker's waiting state, which only `skipWaiting` changes. */
  class Lifecycle {
    var skippedWaiting: bool

    constructor ()
      ensures !skippedWaiting
    {
      skippedWaiting := false;
    }

    /** The `message` handler: only a SKIP_WAITING message makes the worker skip waiting. */
    method OnMessage(data: Option<Doc>)
      modifies this
      ensures skippedWaiting == (old(skippedWaiting) || IsSkipWaiting(data))
    {
      if data.Some? && "type" in data.value && data.value["type"] == Str("SKIP_WAITING") {
        skippedWaiting := true;
      }
    }
  }
}
