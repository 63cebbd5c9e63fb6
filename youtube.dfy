/** controllers/youtubeController.js: a user's notifications, read from the
    log the scheduler appends to, and the one-result YouTube search. */
module YouTube {
  import opened Common
  import Scheduler

  type Notification = Scheduler.Notification

  /** `userNotifications.filter((n) => n.userId === userId)` */
  function Notifications(log: seq<Notification>, userId: string): (r: seq<Notification>)
    ensures |r| <= |log|
    ensures forall i :: 0 <= i < |r| ==> r[i].userId == userId
    ensures forall n :: n in r <==> n in log && n.userId == userId
  {
    if log == [] then []
    else (if log[0].userId == userId then [log[0]] else []) + Notifications(log[1..], userId)
  }

  /** The filter distributes over appending to the log. */
  lemma {:induction false} NotificationsAppend(a: seq<Notification>, b: seq<Notification>, userId: string)
    ensures Notifications(a + b, userId) == Notifications(a, userId) + Notifications(b, userId)
  {
    if a != [] {
      assert (a + b)[1..] == a[1..] + b;
      NotificationsAppend(a[1..], b, userId);
    } else {
      assert a + b == b;
    }
  }

  /** The log only grows, so what a user was shown stays a prefix of what
      they are shown later, and other users' notifications never appear. */
  lemma NotificationsGrow(log: seq<Notification>, n: Notification, userId: string)
    ensures n.userId == userId ==> Notifications(log + [n], userId) == Notifications(log, userId) + [n]
    ensures n.userId != userId ==> Notifications(log + [n], userId) == Notifications(log, userId)
  {
    NotificationsAppend(log, [n], userId);
    assert Notifications([n], userId) == (if n.userId == userId then [n] else []) + Notifications([], userId);
  }

  const WatchPrefix: string := "https://www.youtube.com/watch?v="

  /** One search hit: `item.id.videoId` and `item.snippet.title`. */
  datatype Item = Item(videoId: string, title: string)

  datatype SearchBody = Found(url: string, title: string) | Failure(error: string)

  /** `searched` is the query sent to the search API, when one is sent. */
  datatype SearchOutcome = SearchOutcome(searched: Option<string>, status: int, body: SearchBody)

  function WatchUrl(videoId: string): (url: string)
    ensures StartsWith(url, WatchPrefix) && url[|WatchPrefix|..] == videoId
  {
    WatchPrefix + videoId
  }

  /** The id back from a watch link; inverse of `WatchUrl`. */
  function VideoIdOf(url: string): string
    requires StartsWith(url, WatchPrefix)
  {
    url[|WatchPrefix|..]
  }

  lemma VideoIdRoundTrip(url: string)
    requires StartsWith(url, WatchPrefix)
    ensures WatchUrl(VideoIdOf(url)) == url
  {
    assert url == url[..|WatchPrefix|] + url[|WatchPrefix|..];
  }

  /** `ytSearch`. `items` is the search response's `items`, `None` when the
      request fails or the response has no list. */
  function YtSearch(query: Option<string>, items: Option<seq<Item>>): (r: SearchOutcome)
    ensures query.None? || query.value == "" ==>
      r == SearchOutcome(None, 400, Failure("Нет запроса"))
    ensures query.Some? && query.value != "" ==> r.searched == query
    ensures r.searched.Some? && items.None? ==> r.status == 500 && r.body == Failure("Ошибка поиска видео")
    ensures r.searched.Some? && items == Some([]) ==> r.status == 404 && r.body == Failure("Видео не найдено")
    ensures r.status == 200 <==> r.searched.Some? && items.Some? && items.value != []
    ensures r.status == 200 ==>
      r.body.Found? && StartsWith(r.body.url, WatchPrefix) &&
      VideoIdOf(r.body.url) == items.value[0].videoId &&
      r.body.title == items.value[0].title
  {
    if query.None? || query.value == "" then SearchOutcome(None, 400, Failure("Нет запроса"))
    else match items
      case None => SearchOutcome(query, 500, Failure("Ошибка поиска видео"))
      case Some(list) =>
        if list == [] then SearchOutcome(query, 404, Failure("Видео не найдено"))
        else SearchOutcome(query, 200, Found(WatchUrl(list[0].videoId), list[0].title))
  }
}
