/** Reading a ride's conversation: the seven-day window, newest first, one reversed page at a time. */
module Chat {
  import opened Domain
  import opened Platform
  import opened Pages

  /** The messages of the ride in the window, in the order of the table. */
  function Recent(messages: seq<Message>, rid: RideId, now: Time): seq<Message> {
    if messages == [] then []
    else
      var front, last := Recent(messages[..|messages| - 1], rid, now), messages[|messages| - 1];
      if last.rideId == rid && last.createdAt + SEVEN_DAYS >= now then front + [last] else front
  }

  /** Rows are appended as time passes. */
  ghost predicate InTimeOrder(messages: seq<Message>) {
    forall i, j :: 0 <= i < j < |messages| ==> messages[i].createdAt <= messages[j].createdAt
  }

  /** `findMessages` without its skip and take: the window, newest first. */
  function NewestFirst(messages: seq<Message>, rid: RideId, now: Time): seq<Message> {
    Reverse(Recent(messages, rid, now))
  }

  /** The reply of `getMessages`, or why it refuses. */
  datatype Conversation = Refused(error: Error) | Shown(messages: seq<Message>, meta: Meta)

  function GetMessages(s: State, rid: RideId, user: UserId, page: Option<int>, limit: Option<int>, now: Time): Conversation {
    if rid !in s.w.rides then Refused(NotFound)
    else if s.w.rides[rid].riderId != Some(user) && s.w.rides[rid].passengerId != Some(user) then Refused(Forbidden)
    else
      var w := GetPaginationParams(page, limit);
      var rows := NewestFirst(s.messages, rid, now);
      Shown(Reverse(Slice(rows, w.skip, w.take)), BuildPaginationMeta(|rows|, w.page, w.limit))
  }

  /** The window holds the ride's messages of the last seven days, each as often as it was sent. */
  lemma {:induction false} RecentIn(messages: seq<Message>, rid: RideId, now: Time, m: Message)
    ensures multiset(Recent(messages, rid, now))[m]
         == if m.rideId == rid && m.createdAt + 7 * 24 * 3600 * 1000 >= now then multiset(messages)[m] else 0
    ensures m in Recent(messages, rid, now) <==> m in messages && m.rideId == rid && m.createdAt + SEVEN_DAYS >= now
  {
    if messages == [] {
    } else {
      assert messages == messages[..|messages| - 1] + [messages[|messages| - 1]];
      RecentIn(messages[..|messages| - 1], rid, now, m);
    }
  }

  lemma {:induction false} RecentOrdered(messages: seq<Message>, rid: RideId, now: Time)
    requires InTimeOrder(messages)
    ensures InTimeOrder(Recent(messages, rid, now))
    ensures forall m :: m in Recent(messages, rid, now) ==> m in messages
  {
    if messages == [] {
    } else {
      var front, last := messages[..|messages| - 1], messages[|messages| - 1];
      RecentOrdered(front, rid, now);
      assert messages == front + [last];
      forall m | m in front ensures m.createdAt <= last.createdAt {
        var k :| 0 <= k < |front| && front[k] == m;
        assert messages[k].createdAt <= messages[|front|].createdAt;
      }
    }
  }

  lemma {:induction false} ReverseReverse<T>(xs: seq<T>)
    ensures Reverse(Reverse(xs)) == xs
  {
    if xs == [] {
    } else {
      var front, last := xs[..|xs| - 1], xs[|xs| - 1];
      ReverseAppend([last], Reverse(front));
      ReverseReverse(front);
      assert Reverse([last]) == [last];
    }
  }

  /** Reading the pages from the last back to the first gives the conversation of the window,
      every message once, in ascending time order. */
  lemma PagesReadUpwards(messages: seq<Message>, rid: RideId, now: Time, page: Option<int>, limit: Option<int>)
    requires InTimeOrder(messages)
    ensures
      var rows := NewestFirst(messages, rid, now);
      var w := GetPaginationParams(page, limit);
      var n := BuildPaginationMeta(|rows|, w.page, w.limit).totalPages;
      && ReversedPages(rows, w.limit, n) == Recent(messages, rid, now)
      && InTimeOrder(ReversedPages(rows, w.limit, n))
  {
    var rows := NewestFirst(messages, rid, now);
    var l := GetPaginationParams(page, limit).limit;
    PagesPartition(rows, page, limit);
    ReversedPagesReverse(rows, l, PageCount(|rows|, l));
    ReverseReverse(Recent(messages, rid, now));
    RecentOrdered(messages, rid, now);
  }

  /** A participant asking for page p gets exactly the p-th of those reversed pages. */
  lemma ShownIsReversedPage(s: State, rid: RideId, user: UserId, page: Option<int>, limit: Option<int>, now: Time,
                            p: nat, l: nat)
    requires Asked(page, limit, p, l)
    ensures
      var g := GetMessages(s, rid, user, page, limit, now);
      var rows := NewestFirst(s.messages, rid, now);
      && (g.Shown? <==> rid in s.w.rides && (s.w.rides[rid].riderId == Some(user) || s.w.rides[rid].passengerId == Some(user)))
      && (g == Refused(NotFound) <==> rid !in s.w.rides)
      && (g.Refused? ==> g.error == NotFound || g.error == Forbidden)
      && (g.Shown? ==>
            && ReversedPages(rows, l, p) == g.messages + ReversedPages(rows, l, p - 1)
            && IsPage(Reverse(g.messages), rows, p, l) && IsMeta(g.meta, |rows|, p, l))
  {
    var rows := NewestFirst(s.messages, rid, now);
    var w := GetPaginationParams(page, limit);
    WindowIsPage(rows, page, limit);
    ReverseReverse(Slice(rows, w.skip, w.take));
  }

  // ---- Over any run of the clock ----

  /** Messages are sent at times that never run backwards. */
  ghost predicate Clocked(events: seq<Event>) {
    forall i, j :: 0 <= i < j < |events| && events[i].Say? && events[j].Say? ==> events[i].now <= events[j].now
  }

  ghost predicate AllBefore(messages: seq<Message>, events: seq<Event>) {
    forall m, i :: m in messages && 0 <= i < |events| && events[i].Say? ==> m.createdAt <= events[i].now
  }

  lemma SayOrdered(s: State, events: seq<Event>)
    requires events != [] && InTimeOrder(s.messages) && Clocked(events) && AllBefore(s.messages, events)
    ensures var s' := Apply(s, events[0]);
            InTimeOrder(s'.messages) && Clocked(events[1..]) && AllBefore(s'.messages, events[1..])
  {
    var s' := Apply(s, events[0]);
    assert s'.messages == s.messages
      || (events[0].Say? && s'.messages == s.messages + [Message(events[0].rid, events[0].sender, events[0].content, events[0].now)]);
    forall m, i | m in s'.messages && 0 <= i < |events[1..]| && events[1..][i].Say?
      ensures m.createdAt <= events[1..][i].now
    {
      assert events[1..][i] == events[i + 1];
    }
  }

  lemma {:induction false} PlayOrdered(s: State, events: seq<Event>)
    requires InTimeOrder(s.messages) && Clocked(events) && AllBefore(s.messages, events)
    ensures InTimeOrder(Play(s, events).messages)
    decreases |events|
  {
    if events == [] {
    } else {
      SayOrdered(s, events);
      PlayOrdered(Apply(s, events[0]), events[1..]);
    }
  }

  /** In every state a run with a forward clock reaches, reading the pages of a ride's conversation
      from the last back to the first gives its messages of the last seven days, every one once, in
      ascending time order. */
  lemma ReachableReadsUpwards(events: seq<Event>, rid: RideId, now: Time, page: Option<int>, limit: Option<int>)
    requires Clocked(events)
    ensures
      var messages := Play(START, events).messages;
      var rows := NewestFirst(messages, rid, now);
      var w := GetPaginationParams(page, limit);
      var n := BuildPaginationMeta(|rows|, w.page, w.limit).totalPages;
      && ReversedPages(rows, w.limit, n) == Recent(messages, rid, now)
      && InTimeOrder(ReversedPages(rows, w.limit, n))
      && (forall m: Message :: m in Recent(messages, rid, now) <==>
            m in messages && m.rideId == rid && m.createdAt + 7 * 24 * 3600 * 1000 >= now)
  {
    PlayOrdered(START, events);
    var messages := Play(START, events).messages;
    PagesReadUpwards(messages, rid, now, page, limit);
    forall m: Message
      ensures m in Recent(messages, rid, now) <==> m in messages && m.rideId == rid && m.createdAt + SEVEN_DAYS >= now
    {
      RecentIn(messages, rid, now, m);
    }
  }
}
