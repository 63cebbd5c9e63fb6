/** Worked examples: sequences of handler calls on a fresh scheduler whose
    outcome follows from the handlers' contracts alone. */
module Scenarios {
  import opened Common
  import opened Scheduler

  /** A RuTube request approved on an idle pair starts at once with the
      fallback duration of 180 s and arms one timer; when that timer fires
      the queue is empty and the slot is cleared. */
  method ApproveOnIdlePair() {
    var radio := new Radio();
    var pr := Pair(Rock, RuTube);
    var req := ClientRequest("https://rutube.ru/video/a", "ann", "hello", "Song", "u1");
    var cooldown := radio.NewRequest(Rock, RuTube, req, "id-1", 1000);
    assert cooldown.until == 61000;
    assert FindIndex(radio.pendingRequests, "id-1") == 0;
    ghost var s0 := radio.View();
    ghost var r := radio.pendingRequests[0];
    assert At(s0.queues, pr) == [] && At(s0.currentTracks, pr) == None && s0.timers == [];

    radio.ModerateRequest("id-1", Approve, "", None, true, 2000);
    assert radio.ApprovedFrom(s0, r, None, true, 2000);
    ghost var e := Entry(r, 180);
    assert At(Put(s0.queues, pr, [e]), pr) == [e];
    assert radio.timers == [Timer(182000, pr)];
    assert At(radio.currentTracks, pr) == Some(Playing(e, 2000));
    assert At(radio.queues, pr) == [];

    radio.Fire(0, 182000);
    assert At(radio.currentTracks, pr) == None && radio.timers == [];
  }

  /** A rejection only notifies the listener; repeating it changes nothing. */
  method RejectTwice() {
    var radio := new Radio();
    var req := ClientRequest("https://rutube.ru/video/b", "bob", "", "Other", "u2");
    var _ := radio.NewRequest(HipHop, RuTube, req, "id-2", 0);
    radio.ModerateRequest("id-2", Reject, "too long", None, true, 10);
    assert radio.pendingRequests == [];
    assert |radio.userNotifications| == 1 && radio.userNotifications[0].kind == Error;
    assert At(radio.queues, Pair(HipHop, RuTube)) == [] && radio.ledger == [];

    var before := radio.userNotifications;
    radio.ModerateRequest("id-2", Reject, "too long", None, true, 20);
    assert radio.userNotifications == before;
  }
}
