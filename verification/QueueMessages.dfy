/** The one message a sweep sends, and which of its findings that message carries. */
module QueueMessages {
  import opened Leases
  import opened Expiry
  import opened QueueRules
  import opened QueueInvariants

  /** What is sent: expiry alerts, cancelled bookings, and claim prompts, in this order. */
  datatype Message = Message(alerts: seq<Notice>, cancelled: seq<Notice>, prompts: seq<Notice>)

  function Alerting(notices: seq<Notice>): seq<Notice> {
    if notices == [] then []
    else Alerting(notices[..|notices| - 1]) + (if notices[|notices| - 1].Expiring? then [notices[|notices| - 1]] else [])
  }

  function Cancelling(notices: seq<Notice>): seq<Notice> {
    if notices == [] then []
    else Cancelling(notices[..|notices| - 1]) + (if notices[|notices| - 1].ClaimTimedOut? then [notices[|notices| - 1]] else [])
  }

  function Prompting(notices: seq<Notice>): seq<Notice> {
    if notices == [] then []
    else Prompting(notices[..|notices| - 1]) + (if notices[|notices| - 1].ClaimReady? then [notices[|notices| - 1]] else [])
  }

  /** The text of cancelled bookings is part of the prompting half, and only a prompt switches that half on. */
  function MessageOf(notices: seq<Notice>): Option<Message> {
    var alerts, prompts := Alerting(notices), Prompting(notices);
    if alerts == [] && prompts == [] then None
    else Some(Message(alerts, if prompts == [] then [] else Cancelling(notices), prompts))
  }

  /** The flags and texts a sweep collects, and the message it makes of them. */
  method Assemble(notices: seq<Notice>) returns (message: Option<Message>)
    ensures message == MessageOf(notices)
  {
    var alert, notify := false, false;
    var alerts, cancelled, prompts: seq<Notice> := [], [], [];
    var i := 0;
    while i < |notices|
      invariant 0 <= i <= |notices|
      invariant alerts == Alerting(notices[..i]) && cancelled == Cancelling(notices[..i]) && prompts == Prompting(notices[..i])
      invariant (alert <==> alerts != []) && (notify <==> prompts != [])
    {
      assert notices[..i + 1][..i] == notices[..i];
      match notices[i] {
        case Expiring(_, _, _, _) => alert, alerts := true, alerts + [notices[i]];
        case ClaimTimedOut(_, _) => cancelled := cancelled + [notices[i]];
        case ClaimReady(_, _) => notify, prompts := true, prompts + [notices[i]];
      }
      i := i + 1;
    }
    assert notices[..i] == notices;
    if !alert && !notify {
      return None;
    }
    message := Some(Message(alerts, if notify then cancelled else [], prompts));
  }

  /** Somebody is told `n`. */
  predicate Delivered(notices: seq<Notice>, n: Notice) {
    var m := MessageOf(notices);
    m.Some? && (n in m.value.alerts || n in m.value.cancelled || n in m.value.prompts)
  }

  lemma {:induction false} InParts(notices: seq<Notice>, n: Notice)
    ensures n in Alerting(notices) <==> n in notices && n.Expiring?
    ensures n in Cancelling(notices) <==> n in notices && n.ClaimTimedOut?
    ensures n in Prompting(notices) <==> n in notices && n.ClaimReady?
  {
    if notices != [] {
      var last := |notices| - 1;
      assert notices == notices[..last] + [notices[last]];
      InParts(notices[..last], n);
    }
  }

  predicate SomePrompt(notices: seq<Notice>) {
    exists n :: n in notices && n.ClaimReady?
  }

  /** Alerts and prompts always reach people; a cancellation does exactly when the same sweep prompts somebody. */
  lemma DeliveredIff(notices: seq<Notice>, n: Notice)
    ensures Delivered(notices, n) <==> n in notices && (n.ClaimTimedOut? ==> SomePrompt(notices))
  {
    InParts(notices, n);
    var prompts := Prompting(notices);
    if prompts != [] { InParts(notices, prompts[0]); }
    if SomePrompt(notices) {
      var p :| p in notices && p.ClaimReady?;
      InParts(notices, p);
    }
  }

  // ------------------------------------------------- a sweep over all resources

  /** The sweep prompts the head of this resource's queue: it is idle by then, with a fresh or a second booker. */
  predicate GetsPrompt(cfg: Config, r: Resource, now: int) {
    var e := ExpireOne(cfg, r, now);
    e.status == Idle && e.bookings != [] && (!e.bookings[0].notified || (TimedOut(e.bookings[0], now) && |e.bookings| > 1))
  }

  /** The sweep cancels the booking at the head of this resource's queue. */
  predicate LosesHead(cfg: Config, r: Resource, u: UserId, now: int) {
    var e := ExpireOne(cfg, r, now);
    e.status == Idle && e.bookings != [] && e.bookings[0].user == u && TimedOut(e.bookings[0], now)
  }

  lemma {:induction false} InCollected(s: State, keys: seq<Key>, report: (Key, Resource) -> seq<Notice>, n: Notice)
    ensures n in Collected(s, keys, report) <==> exists k :: k in keys && k in s && n in report(k, s[k])
  {
    if keys != [] {
      var last := |keys| - 1;
      assert keys == keys[..last] + [keys[last]];
      InCollected(s, keys[..last], report, n);
    }
  }

  lemma {:induction false} OnlyAlerts(cfg: Config, key: Key, mode: Status, hs: seq<Stake>, now: int)
    ensures forall n :: n in HolderNotices(cfg, key, mode, hs, now) ==> n.Expiring?
  {
    if hs != [] { OnlyAlerts(cfg, key, mode, hs[1..], now); }
  }

  /** What one resource contributes to the prompting half of the message. */
  lemma ReportedOf(cfg: Config, key: Key, r: Resource, now: int, n: Notice)
    ensures n.ClaimReady? && n in SweepOneNotices(cfg, key, r, now) ==> GetsPrompt(cfg, r, now)
    ensures GetsPrompt(cfg, r, now) ==> SomePrompt(SweepOneNotices(cfg, key, r, now))
    ensures n.ClaimTimedOut? ==>
              (n in SweepOneNotices(cfg, key, r, now) <==> n.key == key && LosesHead(cfg, r, n.user, now))
  {
    var e := ExpireOne(cfg, r, now);
    var prompts := PromptNotices(key, e, now);
    OnlyAlerts(cfg, key, r.status, r.holders, now);
    if GetsPrompt(cfg, r, now) {
      assert prompts[|prompts| - 1].ClaimReady? && prompts[|prompts| - 1] in SweepOneNotices(cfg, key, r, now);
    }
  }

  /** A sweep reports a cancellation exactly for each head it removes. */
  lemma CancelledIff(cfg: Config, s: State, order: seq<Key>, now: int, k: Key, u: UserId)
    requires ToSet(order) == s.Keys
    ensures ClaimTimedOut(k, u) in SweepNotices(cfg, s, order, now) <==> k in s && LosesHead(cfg, s[k], u, now)
  {
    var n := ClaimTimedOut(k, u);
    InCollected(s, order, SweepReport(cfg, now), n);
    forall q | q in s ensures n in SweepReport(cfg, now)(q, s[q]) <==> q == k && LosesHead(cfg, s[q], u, now) {
      ReportedOf(cfg, q, s[q], now, n);
    }
    forall q ensures q in order <==> q in s { assert q in ToSet(order) <==> q in s.Keys; }
  }

  lemma PromptsIff(cfg: Config, s: State, order: seq<Key>, now: int)
    requires ToSet(order) == s.Keys
    ensures SomePrompt(SweepNotices(cfg, s, order, now)) <==> exists k :: k in s && GetsPrompt(cfg, s[k], now)
  {
    var notices := SweepNotices(cfg, s, order, now);
    if SomePrompt(notices) {
      var n :| n in notices && n.ClaimReady?;
      InCollected(s, order, SweepReport(cfg, now), n);
      var k :| k in order && k in s && n in SweepReport(cfg, now)(k, s[k]);
      ReportedOf(cfg, k, s[k], now, n);
    }
    if k :| k in s && GetsPrompt(cfg, s[k], now) {
      ReportedOf(cfg, k, s[k], now, ClaimReady(k, ""));
      var n :| n in SweepOneNotices(cfg, k, s[k], now) && n.ClaimReady?;
      assert k in ToSet(order);
      InCollected(s, order, SweepReport(cfg, now), n);
    }
  }

  /**
   * A booking that a sweep cancels is announced to anybody if and only if the same sweep prompts somebody,
   * on this resource or on any other: then the user is out of the queue and the text is part of the message.
   */
  lemma TimeoutIsAnnouncedIff(cfg: Config, s: State, order: seq<Key>, t: int, now: int, k: Key, u: UserId)
    requires ToSet(order) == s.Keys && WellFormedState(s, t) && t <= now
    requires k in s && LosesHead(cfg, s[k], u, now)
    ensures !Has(SweepAll(cfg, s, now)[k].bookings, u)
    ensures Delivered(SweepNotices(cfg, s, order, now), ClaimTimedOut(k, u)) <==>
            exists q :: q in s && GetsPrompt(cfg, s[q], now)
  {
    CancelledIff(cfg, s, order, now, k, u);
    PromptsIff(cfg, s, order, now);
    DeliveredIff(SweepNotices(cfg, s, order, now), ClaimTimedOut(k, u));
    var e := ExpireOne(cfg, s[k], now);
    ExpireKeepsWellFormed(cfg, s[k], t, now);
    assert SweepOne(cfg, e, now) == PromptOne(e, now) == SweepOne(cfg, s[k], now);
    WindowTimesOut(cfg, e, now, now, e.bookings[0]);
  }

  function QueueOf(b: Stake): Resource { Resource(Idle, [], [b]) }

  function LeaseOf(h: Stake): Resource { Resource(Exclusive, [h], []) }

  lemma SoundExample(s: Stake, now: int)
    requires s.start <= now
    ensures WellFormed(QueueOf(s), now) && WellFormed(LeaseOf(s), now)
  {
    assert [] + [s] == [s] && [s] + [] == [s];
  }

  function TwoOf(a: Resource, b: Resource): (s: State)
    ensures s.Keys == ToSet(["a", "b"]) && s["a"] == a && s["b"] == b
  {
    assert "a" != "b" by { assert "a"[0] != "b"[0]; }
    map["a" := a, "b" := b]
  }

  /** Nobody is behind the cancelled booking on "a", but the prompt on "b" sends the message that announces it. */
  lemma AnnouncedByAnother(cfg: Config)
    ensures var s := TwoOf(QueueOf(Stake("u", 0, 100, true)), QueueOf(Stake("v", 0, 100, false)));
            && WellFormedState(s, 300)
            && LosesHead(cfg, s["a"], "u", 300) && !GetsPrompt(cfg, s["a"], 300)
            && Delivered(SweepNotices(cfg, s, ["a", "b"], 300), ClaimTimedOut("a", "u"))
  {
    var s := TwoOf(QueueOf(Stake("u", 0, 100, true)), QueueOf(Stake("v", 0, 100, false)));
    SoundExample(Stake("u", 0, 100, true), 300);
    SoundExample(Stake("v", 0, 100, false), 300);
    assert GetsPrompt(cfg, s["b"], 300);
    TimeoutIsAnnouncedIff(cfg, s, ["a", "b"], 300, 300, "a", "u");
  }

  lemma LapsedIsReported(cfg: Config, s: State, k: Key, h: Stake, now: int)
    requires k in s && s[k] == LeaseOf(h) && !h.notified && Remaining(h, now) == 0
    ensures Expiring(k, h.user, Exclusive, 0) in SweepReport(cfg, now)(k, s[k])
  {
    assert HolderNotices(cfg, k, Exclusive, [h], now) == [Expiring(k, h.user, Exclusive, 0)];
  }

  /** A message does go out here, for the lease that ended on "b", but the cancellation on "a" is not in it. */
  lemma AlertedButSilent(cfg: Config)
    ensures var s := TwoOf(QueueOf(Stake("u", 0, 100, true)), LeaseOf(Stake("v", 0, 100, false)));
            var notices := SweepNotices(cfg, s, ["a", "b"], 300);
            && WellFormedState(s, 300) && LosesHead(cfg, s["a"], "u", 300)
            && MessageOf(notices).Some? && !Delivered(notices, ClaimTimedOut("a", "u"))
  {
    var h := Stake("v", 0, 100, false);
    var s := TwoOf(QueueOf(Stake("u", 0, 100, true)), LeaseOf(h));
    var notices, n := SweepNotices(cfg, s, ["a", "b"], 300), Expiring("b", "v", Exclusive, 0);
    SoundExample(Stake("u", 0, 100, true), 300);
    SoundExample(h, 300);
    assert !GetsPrompt(cfg, s["a"], 300) && !GetsPrompt(cfg, s["b"], 300);
    TimeoutIsAnnouncedIff(cfg, s, ["a", "b"], 300, 300, "a", "u");
    LapsedIsReported(cfg, s, "b", h, 300);
    assert n in notices by { InCollected(s, ["a", "b"], SweepReport(cfg, 300), n); }
    InParts(notices, n);
  }
}
