/** The playback scheduler of server.js: per (genre, platform) FIFO queues,
    a now-playing slot per pair, the platform selection per genre, the
    moderation list, the notification log, the approval ledger and the armed
    `setTimeout` timers, with the socket handlers `get-queue`,
    `change-platform`, `new-request` and `moderate-request` and the timer
    callback `startNextTrack`.

    Wall-clock time is an integer number of milliseconds passed to every
    operation; the fresh request id (`uuidv4`), the result of the YouTube
    duration lookup and the outcome of the database insert are parameters.
    Each handler runs atomically. */
module Scheduler {
  import opened Common
  import opened Duration

  datatype Genre = Rock | HipHop | Electronic
  datatype Platform = YouTube | RuTube

  /** A (genre, platform) pair: the key of a queue and of a now-playing slot. */
  datatype Pair = Pair(genre: Genre, platform: Platform)

  /** The `status` string of a request object or a ledger row. */
  datatype Status = Sent | Approved

  /** The fields of a listener's `request` payload that the server reads. */
  datatype ClientRequest = ClientRequest(
    track: string, username: string, message: string, title: string, userId: string)

  /** An element of `pendingRequests`: the client's fields with the id, genre,
      platform, status and timestamp the server writes over them. */
  datatype Request = Request(
    id: string, genre: Genre, platform: Platform, status: Status, timestamp: int,
    track: string, username: string, message: string, title: string, userId: string)

  /** A queue element: the request object spread with its `durationSec`. */
  datatype Entry = Entry(request: Request, durationSec: nat)

  /** A now-playing slot's value: the entry spread with `startedAt`. */
  datatype Playing = Playing(entry: Entry, startedAt: int)

  datatype NotificationKind = Success | Error

  /** An element of `global.userNotifications`. */
  datatype Notification = Notification(userId: string, message: string, kind: NotificationKind, read: bool)

  /** A row of the `requests` table written on approval. */
  datatype LedgerRow = LedgerRow(
    id: string, genre: Genre, track: string, username: string, message: string, title: string,
    status: Status, durationSec: nat, timestamp: int, startedAt: int, userId: string,
    platform: Platform)

  /** An armed `setTimeout(() => startNextTrack(genre, platform), ...)`. */
  datatype Timer = Timer(fireAt: int, pair: Pair)

  /** The `cooldown-update-{genre}` payload sent after a new request. */
  datatype Cooldown = Cooldown(userId: string, genre: Genre, until: int)

  /** The `action` of `moderate-request`; any other string is `OtherAction`. */
  datatype Action = Approve | Reject | OtherAction

  const FallbackDurationSec: nat := 180
  const CooldownMs: int := 60 * 1000

  /** The largest delay Node's `setTimeout` honours: 2^31 - 1 milliseconds. */
  const TimeoutMaxMs: int := 0x7FFF_FFFF

  /** The delay `setTimeout(fn, ms)` actually waits in Node: a delay outside
      1 .. 2^31 - 1 milliseconds is replaced by 1 millisecond. */
  function TimerDelay(ms: int): (r: int)
    ensures 1 <= r <= TimeoutMaxMs
    ensures r == ms <==> 1 <= ms <= TimeoutMaxMs
    ensures r != ms ==> r == 1
  {
    if 1 <= ms <= TimeoutMaxMs then ms else 1
  }

  /** `isTrackPlaying`: a slot is playing while fewer than `durationSec`
      seconds have passed since `startedAt`. The source divides the elapsed
      milliseconds by 1000; the contract states the same test on integers. */
  function IsTrackPlaying(t: Option<Playing>, now: int): (r: bool)
    ensures r <==> t.Some? && now - t.value.startedAt < t.value.entry.durationSec * 1000
  {
    match t
    case None => false
    case Some(p) => (now - p.startedAt) as real / 1000.0 < p.entry.durationSec as real
  }

  /** The duration an approved request is enqueued with (the approve branch of
      `moderate-request`): for YouTube the parsed lookup result when it is a
      positive number of seconds; otherwise, and always for RuTube, 180.
      `iso` is `None` when the lookup or the reading of its result throws. */
  function ResolveDuration(platform: Platform, iso: Option<string>): (r: nat)
    ensures r >= 1
    ensures platform == RuTube ==> r == FallbackDurationSec
    ensures platform == YouTube && iso.Some? && ParseIsoDuration(iso.value).Some?
            && ParseIsoDuration(iso.value).value > 0
            ==> r == ParseIsoDuration(iso.value).value
    ensures (platform == YouTube && iso.Some? && ParseIsoDuration(iso.value) == Some(0))
            ==> r == FallbackDurationSec
    ensures (platform == YouTube && (iso.None? || ParseIsoDuration(iso.value).None?))
            ==> r == FallbackDurationSec
  {
    var durationSec := FallbackDurationSec;
    var looked :=
      if platform == YouTube then
        match iso
        case None => durationSec
        case Some(s) =>
          match ParseIsoDuration(s)
          case None => durationSec
          case Some(n) => if n != 0 then n else durationSec
      else durationSec;
    if looked != 0 then looked else FallbackDurationSec
  }

  /** A YouTube video whose duration comes back as canonical `PT…H…M…S`
      text is enqueued with exactly that many seconds, unless it is zero. */
  lemma ResolveIsoTime(hours: Option<nat>, minutes: Option<nat>, seconds: Option<nat>)
    ensures var n := Seconds(hours, minutes, seconds);
      ResolveDuration(YouTube, Some(IsoTime(hours, minutes, seconds)))
        == if n > 0 then n else FallbackDurationSec
  {
    ParseIsoTime(hours, minutes, seconds);
  }

  /** A YouTube video reported as "PT597H" is enqueued for its 2 149 200 s,
      but the timer armed when it starts waits only 1 ms: 2 149 200 000 ms is
      beyond what `setTimeout` honours, so the next track follows at once. */
  lemma OverlongTrackTimer()
    ensures ResolveDuration(YouTube, Some("PT597H")) == 2149200
    ensures TimerDelay(ResolveDuration(YouTube, Some("PT597H")) * 1000) == 1
  {
    assert NatToString(5) == "5";
    assert NatToString(59) == NatToString(5) + "9";
    assert NatToString(597) == NatToString(59) + "7" == "597";
    assert IsoTime(Some(597), None, None) == "PT597H";
    assert Seconds(Some(597), None, None) == 2149200;
    ResolveIsoTime(Some(597), None, None);
  }

  /** `pendingRequests.findIndex((r) => r.id === id)`. */
  function FindIndex(s: seq<Request>, id: string): (r: int)
    ensures -1 <= r < |s|
    ensures r == -1 <==> forall i :: 0 <= i < |s| ==> s[i].id != id
    ensures r >= 0 ==> s[r].id == id && forall i :: 0 <= i < r ==> s[i].id != id
  {
    if s == [] then -1
    else if s[0].id == id then 0
    else
      var k := FindIndex(s[1..], id);
      if k == -1 then -1 else k + 1
  }

  /** The approval message, which names the request's title. */
  function ApprovedMessage(title: string): (m: string)
    ensures Contains(m, title)
  {
    var prefix := "Ваша заявка \"";
    var m := prefix + title + "\" одобрена ✅";
    assert OccursAt(m, title, |prefix|);
    m
  }

  /** The rejection message, which names the title and ends with the
      moderator's reason. */
  function RejectedMessage(title: string, reason: string): (m: string)
    ensures Contains(m, title)
    ensures |reason| <= |m| && m[|m| - |reason|..] == reason
  {
    var prefix := "Заявка \"";
    var m := prefix + title + "\" отклонена ❌ Причина: " + reason;
    assert OccursAt(m, title, |prefix|);
    m
  }

  /** The ledger row `moderate-request` inserts for an approved entry. */
  function ApprovedRow(e: Entry, now: int): (row: LedgerRow)
    ensures row.id == e.request.id && row.status == Approved && row.durationSec == e.durationSec
    ensures row.genre == e.request.genre && row.platform == e.request.platform
  {
    var q := e.request;
    LedgerRow(q.id, q.genre, q.track, q.username, q.message, q.title, Approved,
              e.durationSec, now, now, q.userId, q.platform)
  }

  /** An entry belongs in the queue of `pr`: it carries the pair's genre and
      platform, a positive duration, and the request's `sent` status. */
  predicate Fits(e: Entry, pr: Pair) {
    e.request.genre == pr.genre && e.request.platform == pr.platform &&
    e.durationSec >= 1 && e.request.status == Sent
  }

  function Last<T>(s: seq<T>): T
    requires s != []
  {
    s[|s| - 1]
  }

  /** A value per platform: the inner objects `{ youtube: …, rutube: … }`. */
  datatype ByPlatform<T> = ByPlatform(youtube: T, rutube: T) {
    function Get(p: Platform): T {
      match p
      case YouTube => youtube
      case RuTube => rutube
    }

    function Set(p: Platform, v: T): (r: ByPlatform<T>)
      ensures r.Get(p) == v
      ensures forall p' :: p' != p ==> r.Get(p') == Get(p')
    {
      match p
      case YouTube => this.(youtube := v)
      case RuTube => this.(rutube := v)
    }
  }

  /** A value per genre: the objects `{ rock: …, hiphop: …, electronic: … }`. */
  datatype ByGenre<T> = ByGenre(rock: T, hiphop: T, electronic: T) {
    function Get(g: Genre): T {
      match g
      case Rock => rock
      case HipHop => hiphop
      case Electronic => electronic
    }

    function Set(g: Genre, v: T): (r: ByGenre<T>)
      ensures r.Get(g) == v
      ensures forall g' :: g' != g ==> r.Get(g') == Get(g')
    {
      match g
      case Rock => this.(rock := v)
      case HipHop => this.(hiphop := v)
      case Electronic => this.(electronic := v)
    }
  }

  /** `queues` and `currentTracks` are indexed `[genre][platform]`. */
  type Table<T> = ByGenre<ByPlatform<T>>

  function At<T>(t: Table<T>, pr: Pair): T {
    t.Get(pr.genre).Get(pr.platform)
  }

  function Put<T>(t: Table<T>, pr: Pair, v: T): (r: Table<T>)
    ensures At(r, pr) == v
    ensures forall q :: q != pr ==> At(r, q) == At(t, q)
  {
    t.Set(pr.genre, t.Get(pr.genre).Set(pr.platform, v))
  }

  function Uniform<T>(v: T): (t: Table<T>)
    ensures forall pr :: At(t, pr) == v
  {
    var row := ByPlatform(v, v);
    ByGenre(row, row, row)
  }

  /** The invariant of one pair: what has started, followed by what waits,
      is what was pushed (FIFO); every waiting entry and the slot's entry
      belong to the pair and last at least a second; the slot holds the
      entry started last. */
  ghost predicate PairOk(pr: Pair, queue: seq<Entry>, current: Option<Playing>,
                         pushed: seq<Entry>, started: seq<Entry>)
  {
    started + queue == pushed &&
    (forall i :: 0 <= i < |queue| ==> Fits(queue[i], pr)) &&
    (current.Some? ==>
       Fits(current.value.entry, pr) && started != [] && current.value.entry == Last(started))
  }

  /** Every waiting request is `sent`, carries an issued id, and no two
      carry the same id. */
  ghost predicate PendingOk(pending: seq<Request>, issued: set<string>) {
    (forall i :: 0 <= i < |pending| ==> pending[i].status == Sent && pending[i].id in issued) &&
    (forall i, j :: 0 <= i < j < |pending| ==> pending[i].id != pending[j].id)
  }

  /** The scheduler's playback state, its ghost histories and its two logs. */
  datatype StateView = StateView(queues: Table<seq<Entry>>, currentTracks: Table<Option<Playing>>,
                               timers: seq<Timer>, started: Table<seq<Entry>>,
                               pushed: Table<seq<Entry>>, ledger: seq<LedgerRow>,
                               notifications: seq<Notification>)

  class Radio {
    var queues: Table<seq<Entry>>
    var currentTracks: Table<Option<Playing>>
    var currentPlatforms: ByGenre<Platform>
    var pendingRequests: seq<Request>
    var userNotifications: seq<Notification>
    var ledger: seq<LedgerRow>
    var timers: seq<Timer>

    /** Per pair, every entry ever pushed to its queue, and every entry ever
        started from it, in order. */
    ghost var pushed: Table<seq<Entry>>
    ghost var started: Table<seq<Entry>>
    /** Every id `uuidv4` has handed out so far. */
    ghost var issuedIds: set<string>

    ghost predicate Valid()
      reads this
    {
      (forall pr: Pair :: PairOk(pr, At(queues, pr), At(currentTracks, pr), At(pushed, pr), At(started, pr))) &&
      PendingOk(pendingRequests, issuedIds)
    }

    /** The state the server starts with (server.js:89-108). */
    constructor ()
      ensures Valid()
      ensures forall pr :: At(queues, pr) == [] && At(currentTracks, pr) == None
      ensures forall g :: currentPlatforms.Get(g) == YouTube
      ensures pendingRequests == [] && userNotifications == [] && ledger == [] && timers == []
      ensures forall pr :: At(pushed, pr) == [] && At(started, pr) == []
      ensures issuedIds == {}
    {
      queues := Uniform([]);
      currentTracks := Uniform(None);
      currentPlatforms := ByGenre(YouTube, YouTube, YouTube);
      pendingRequests := [];
      userNotifications := [];
      ledger := [];
      timers := [];
      pushed := Uniform([]);
      started := Uniform([]);
      issuedIds := {};
    }

    /** The playback state after `startNextTrack(pr)` run on the playback
        state `q0, c0, t0, s0`: on an empty queue the slot is cleared and
        nothing else changes; otherwise the head leaves the queue, becomes
        the slot's track with `startedAt = now`, and exactly one timer is
        added, `durationSec` seconds later, or 1 ms later when that exceeds
        the largest delay `setTimeout` honours. No other pair changes. */
    ghost predicate NextStarted(q0: Table<seq<Entry>>, c0: Table<Option<Playing>>,
                                t0: seq<Timer>, s0: Table<seq<Entry>>, pr: Pair, now: int)
      reads this
    {
      var q := At(q0, pr);
      if q == [] then
        queues == q0 && currentTracks == Put(c0, pr, None) && timers == t0 && started == s0
      else
        queues == Put(q0, pr, q[1..]) &&
        currentTracks == Put(c0, pr, Some(Playing(q[0], now))) &&
        timers == t0 + [Timer(now + TimerDelay(q[0].durationSec * 1000), pr)] &&
        started == Put(s0, pr, At(s0, pr) + [q[0]])
    }

    twostate predicate SamePlayback()
      reads this
    {
      queues == old(queues) && currentTracks == old(currentTracks) &&
      timers == old(timers) && started == old(started)
    }

    twostate predicate SameModeration()
      reads this
    {
      pendingRequests == old(pendingRequests) && issuedIds == old(issuedIds)
    }

    twostate predicate SameRecords()
      reads this
    {
      userNotifications == old(userNotifications) && ledger == old(ledger)
    }

    /** Everything but the moderation list and the platform choice. */
    ghost function View(): StateView
      reads this
    {
      StateView(queues, currentTracks, timers, started, pushed, ledger, userNotifications)
    }

    /** The state after the approve branch of `moderate-request` for `req`,
        from the state `s0` before it: the entry with its resolved duration is
        pushed to its pair's queue; if the insert fails nothing else changes;
        otherwise one `approved` row and one success notification are added
        and, when nothing is playing on the pair, the next track starts. */
    ghost predicate ApprovedFrom(s0: StateView, req: Request, iso: Option<string>,
                                 insertSucceeds: bool, now: int)
      reads this
    {
      var pr := Pair(req.genre, req.platform);
      var e := Entry(req, ResolveDuration(req.platform, iso));
      var s1 := s0.(queues := Put(s0.queues, pr, At(s0.queues, pr) + [e]),
                    pushed := Put(s0.pushed, pr, At(s0.pushed, pr) + [e]));
      if !insertSucceeds then View() == s1
      else
        var s2 := s1.(ledger := s1.ledger + [ApprovedRow(e, now)],
                      notifications := s1.notifications +
                        [Notification(req.userId, ApprovedMessage(req.title), Success, false)]);
        if IsTrackPlaying(At(s0.currentTracks, pr), now) then View() == s2
        else
          pushed == s2.pushed && ledger == s2.ledger && userNotifications == s2.notifications &&
          NextStarted(s2.queues, s2.currentTracks, s2.timers, s2.started, pr, now)
    }

    /** The state after the reject branch: one error notification carrying
        the reason, nothing else. */
    ghost predicate RejectedFrom(s0: StateView, req: Request, reason: string)
      reads this
    {
      View() == s0.(notifications := s0.notifications +
        [Notification(req.userId, RejectedMessage(req.title, reason), Error, false)])
    }

    /** `startNextTrack(genre, platform)` (server.js:120-136). */
    method StartNextTrack(g: Genre, p: Platform, now: int)
      requires Valid()
      modifies this
      ensures Valid()
      ensures NextStarted(old(queues), old(currentTracks), old(timers), old(started), Pair(g, p), now)
      ensures old(At(queues, Pair(g, p))) != [] ==> IsTrackPlaying(At(currentTracks, Pair(g, p)), now)
      ensures pushed == old(pushed) && currentPlatforms == old(currentPlatforms)
      ensures SameModeration() && SameRecords()
    {
      var pr := Pair(g, p);
      var q := At(queues, pr);
      assert PairOk(pr, q, At(currentTracks, pr), At(pushed, pr), At(started, pr));
      if |q| == 0 {
        currentTracks := Put(currentTracks, pr, None);
        return;
      }
      var next := q[0];
      queues := Put(queues, pr, q[1..]);
      currentTracks := Put(currentTracks, pr, Some(Playing(next, now)));
      timers := timers + [Timer(now + TimerDelay(next.durationSec * 1000), pr)];
      started := Put(started, pr, At(started, pr) + [next]);
      assert At(started, pr) + At(queues, pr) == old(At(started, pr)) + q by {
        assert q == [next] + q[1..];
      }
    }

    /** An armed timer whose time has come runs `startNextTrack` for its pair
        (server.js:135); it is the only timer that disappears. */
    method Fire(i: nat, now: int)
      requires Valid()
      requires i < |timers| && timers[i].fireAt <= now
      modifies this
      ensures Valid()
      ensures NextStarted(old(queues), old(currentTracks), old(timers[..i] + timers[i + 1..]),
                          old(started), old(timers[i].pair), now)
      ensures pushed == old(pushed) && currentPlatforms == old(currentPlatforms)
      ensures SameModeration() && SameRecords()
    {
      var t := timers[i];
      timers := timers[..i] + timers[i + 1..];
      StartNextTrack(t.pair.genre, t.pair.platform, now);
    }

    /** The `get-queue` handler (server.js:189-203): a playing slot or an
        empty queue leaves everything as it is (an expired slot stays in
        place); otherwise the next track is started. */
    method GetQueue(g: Genre, p: Platform, now: int)
      requires Valid()
      modifies this
      ensures Valid()
      ensures var pr := Pair(g, p);
        if IsTrackPlaying(old(At(currentTracks, pr)), now) || old(At(queues, pr)) == [] then SamePlayback()
        else NextStarted(old(queues), old(currentTracks), old(timers), old(started), pr, now)
      ensures pushed == old(pushed) && currentPlatforms == old(currentPlatforms)
      ensures SameModeration() && SameRecords()
    {
      var pr := Pair(g, p);
      var cur := At(currentTracks, pr);
      if IsTrackPlaying(cur, now) {
      } else if |At(queues, pr)| > 0 {
        StartNextTrack(g, p, now);
      }
    }

    /** The `change-platform` handler (server.js:206-222). The slot of the
        pair always holds an entry of that pair's platform, so the reset
        branch never fires; a non-empty queue starts its next track even
        while the slot is still playing, and the earlier track's timer stays
        armed. */
    method ChangePlatform(g: Genre, p: Platform, now: int)
      requires Valid()
      modifies this
      ensures Valid()
      ensures currentPlatforms == old(currentPlatforms).Set(g, p)
      ensures var pr := Pair(g, p);
        if old(At(queues, pr)) == [] then SamePlayback()
        else NextStarted(old(queues), old(currentTracks), old(timers), old(started), pr, now)
      ensures pushed == old(pushed)
      ensures SameModeration() && SameRecords()
    {
      currentPlatforms := currentPlatforms.Set(g, p);
      var pr := Pair(g, p);
      var cur := At(currentTracks, pr);
      assert PairOk(pr, At(queues, pr), cur, At(pushed, pr), At(started, pr));
      if cur.Some? && cur.value.entry.request.platform != p {
        // never taken: Valid() keeps every slot on its own pair's platform
        assert false;
      }
      if |At(queues, pr)| > 0 {
        StartNextTrack(g, p, now);
      }
    }

    /** The `new-request` handler (server.js:224-239): appends one request
        with the fresh id, the given genre and platform and status `sent`,
        and answers the cooldown window of one minute. */
    method NewRequest(g: Genre, p: Platform, req: ClientRequest, id: string, now: int)
      returns (cooldown: Cooldown)
      requires Valid()
      requires id !in issuedIds
      modifies this
      ensures Valid()
      ensures pendingRequests == old(pendingRequests) +
        [Request(id, g, p, Sent, now, req.track, req.username, req.message, req.title, req.userId)]
      ensures issuedIds == old(issuedIds) + {id}
      ensures cooldown == Cooldown(req.userId, g, now + CooldownMs)
      ensures SamePlayback() && SameRecords()
      ensures pushed == old(pushed) && currentPlatforms == old(currentPlatforms)
    {
      pendingRequests := pendingRequests +
        [Request(id, g, p, Sent, now, req.track, req.username, req.message, req.title, req.userId)];
      issuedIds := issuedIds + {id};
      cooldown := Cooldown(req.userId, g, now + CooldownMs);
    }

    /** The `moderate-request` handler (server.js:241-334). An unknown id
        changes nothing. Otherwise exactly that request leaves the moderation
        list, whatever the action. On approval the entry, with its resolved
        duration, is pushed to its pair's queue; if the database insert then
        fails the handler stops there; if it succeeds, one `approved` row is
        recorded, the next track starts when nothing is playing, and one
        success notification is logged. A rejection only logs one error
        notification carrying the reason. */
    method ModerateRequest(id: string, action: Action, reason: string, iso: Option<string>,
                           insertSucceeds: bool, now: int)
      requires Valid()
      modifies this
      ensures Valid()
      ensures issuedIds == old(issuedIds) && currentPlatforms == old(currentPlatforms)
      ensures FindIndex(pendingRequests, id) == -1
      ensures var idx := FindIndex(old(pendingRequests), id);
        if idx == -1 then pendingRequests == old(pendingRequests) && View() == old(View())
        else
          pendingRequests == old(pendingRequests[..idx] + pendingRequests[idx + 1..]) &&
          match action
          case Approve => ApprovedFrom(old(View()), old(pendingRequests[idx]), iso, insertSucceeds, now)
          case Reject => RejectedFrom(old(View()), old(pendingRequests[idx]), reason)
          case OtherAction => View() == old(View())
    {
      var idx := FindIndex(pendingRequests, id);
      if idx == -1 {
        return;
      }
      var reqObj := pendingRequests[idx];
      RemovePreserves(pendingRequests, issuedIds, idx);
      RemoveFound(pendingRequests, issuedIds, id);
      pendingRequests := pendingRequests[..idx] + pendingRequests[idx + 1..];
      if action == Approve {
        EnqueueApproved(reqObj, iso, insertSucceeds, now);
      }

      if action == Reject {
        userNotifications := userNotifications +
          [Notification(reqObj.userId, RejectedMessage(reqObj.title, reason), Error, false)];
      }
    }

    /** `queues[genre][platform].push(entry)` (server.js:276). */
    method Push(pr: Pair, e: Entry)
      requires Valid() && Fits(e, pr)
      modifies this
      ensures Valid()
      ensures queues == Put(old(queues), pr, old(At(queues, pr)) + [e])
      ensures pushed == Put(old(pushed), pr, old(At(pushed, pr)) + [e])
      ensures currentTracks == old(currentTracks) && timers == old(timers) && started == old(started)
      ensures currentPlatforms == old(currentPlatforms) && SameModeration() && SameRecords()
    {
      assert PairOk(pr, At(queues, pr), At(currentTracks, pr), At(pushed, pr), At(started, pr));
      queues := Put(queues, pr, At(queues, pr) + [e]);
      pushed := Put(pushed, pr, At(pushed, pr) + [e]);
      assert At(started, pr) + At(queues, pr) == At(pushed, pr) by {
        assert At(started, pr) + At(queues, pr) == (At(started, pr) + old(At(queues, pr))) + [e];
      }
    }

    /** The approve branch of `moderate-request` (server.js:248-320) for the
        request `req` already taken out of the moderation list. */
    method EnqueueApproved(req: Request, iso: Option<string>, insertSucceeds: bool, now: int)
      requires Valid() && req.status == Sent
      modifies this
      ensures Valid()
      ensures SameModeration() && currentPlatforms == old(currentPlatforms)
      ensures ApprovedFrom(old(View()), req, iso, insertSucceeds, now)
    {
      var pr := Pair(req.genre, req.platform);
      var durationSec := ResolveDuration(req.platform, iso);
      var enriched := Entry(req, durationSec);
      Push(pr, enriched);
      if !insertSucceeds {
        return;
      }
      ledger := ledger + [ApprovedRow(enriched, now)];
      if !IsTrackPlaying(At(currentTracks, pr), now) {
        StartNextTrack(pr.genre, pr.platform, now);
      }
      userNotifications := userNotifications +
        [Notification(req.userId, ApprovedMessage(req.title), Success, false)];
    }
  }

  /** Taking one request out of the moderation list keeps it well formed. */
  lemma RemovePreserves(pending: seq<Request>, issued: set<string>, idx: nat)
    requires PendingOk(pending, issued) && idx < |pending|
    ensures PendingOk(pending[..idx] + pending[idx + 1..], issued)
  {
    var rest := pending[..idx] + pending[idx + 1..];
    assert forall i :: 0 <= i < |rest| ==> rest[i] == pending[if i < idx then i else i + 1];
  }

  /** Ids in the moderation list are unique, so once the request found for
      `id` is taken out no request with that id is left: repeating
      `moderate-request` with the same id changes nothing. */
  lemma RemoveFound(pending: seq<Request>, issued: set<string>, id: string)
    requires PendingOk(pending, issued) && FindIndex(pending, id) >= 0
    ensures var idx := FindIndex(pending, id);
      FindIndex(pending[..idx] + pending[idx + 1..], id) == -1
  {
    var idx := FindIndex(pending, id);
    var rest := pending[..idx] + pending[idx + 1..];
    forall i | 0 <= i < |rest| ensures rest[i].id != id {
      var j := if i < idx then i else i + 1;
      assert rest[i] == pending[j];
      if j < idx {
        assert pending[j].id != pending[idx].id;
      } else {
        assert pending[idx].id != pending[j].id;
      }
    }
  }
}
