/** The two write tools. Both append exactly one row and change nothing else;
    neither validates its arguments. */
module Actions {
  import opened Wrappers
  import opened Records
  import Search
  import Seqs

  /** `COALESCE(MAX(thread_id), 0)` over the emails table. */
  function MaxThreadId(store: seq<Email>): (m: int)
    ensures store == [] ==> m == 0
    ensures forall i :: 0 <= i < |store| ==> store[i].threadId <= m
    ensures store != [] ==> exists i :: 0 <= i < |store| && store[i].threadId == m
  {
    if |store| == 0 then 0
    else if |store| == 1 then store[0].threadId
    else
      var rest := MaxThreadId(store[1..]);
      assert forall i :: 1 <= i < |store| ==> store[i] == store[1..][i - 1];
      if store[0].threadId >= rest then store[0].threadId else rest
  }

  /** The thread id `send_email` assigns when none is given: one above every
      existing thread id, which is 1 on an empty table. */
  function NextThreadId(store: seq<Email>): (t: int)
    ensures forall i :: 0 <= i < |store| ==> store[i].threadId < t
    ensures store == [] ==> t == 1
    ensures store != [] ==> exists i :: 0 <= i < |store| && store[i].threadId == t - 1
  {
    MaxThreadId(store) + 1
  }

  /** The new table and the confirmation text `send_email` returns. */
  datatype Sent = Sent(store: seq<Email>, reply: string)

  /** `send_email`: appends one email sent by the caller's `userId`, stamped
      with the store's current time `now`, on the given thread or, when none
      is given, on a new thread. An explicit thread id (0 included) is stored as is. */
  function SendEmail(store: seq<Email>, userId: string, to: string, subject: string, body: string,
                     threadId: Option<int>, now: int): (r: Sent)
    ensures |r.store| == |store| + 1 && r.store[..|store|] == store
    ensures var e := r.store[|store|];
            e.sender == userId && e.recipient == to && e.subject == subject
            && e.body == body && e.timestamp == now
    ensures threadId.Some? ==> r.store[|store|].threadId == threadId.value
    ensures threadId.None? ==> forall i :: 0 <= i < |store| ==> store[i].threadId < r.store[|store|].threadId
    ensures threadId.None? && store == [] ==> r.store[|store|].threadId == 1
    ensures threadId.None? && store != [] ==>
              exists i :: 0 <= i < |store| && store[i].threadId + 1 == r.store[|store|].threadId
    ensures r.reply == "Email sent to " + to + " with subject '" + subject + "'."
  {
    var t := match threadId case Some(v) => v case None => NextThreadId(store);
    Sent(store + [Email(userId, to, subject, body, now, t)], "Email sent to " + to + " with subject '" + subject + "'.")
  }

  /** Two sends in a row without a thread id open two threads with strictly
      increasing ids, the second one directly above the first. */
  lemma SequentialSendsIncrease(store: seq<Email>, userId: string, to1: string, subject1: string, body1: string,
                                to2: string, subject2: string, body2: string, now1: int, now2: int)
    ensures var s1 := SendEmail(store, userId, to1, subject1, body1, None, now1).store;
            var s2 := SendEmail(s1, userId, to2, subject2, body2, None, now2).store;
            s2[|s1|].threadId == s1[|store|].threadId + 1
  {
    var s1 := SendEmail(store, userId, to1, subject1, body1, None, now1).store;
    var m := MaxThreadId(s1);
    assert s1[|store|].threadId <= m;
    assert forall i :: 0 <= i < |s1| ==> s1[i].threadId <= s1[|store|].threadId;
  }

  /** On an empty store, a send without thread id opens thread 1, and a search
      by the sender finds exactly that email: for a non-empty user id given
      that `%u%` matches `u`, and for the empty one because an empty sender
      filter is no filter at all. */
  lemma FirstSendIsFound(userId: string, to: string, subject: string, body: string, now: int,
                         like: (string, string) -> bool)
    requires userId != "" ==> like(Search.Contains(userId), userId)
    ensures var s := SendEmail([], userId, to, subject, body, None, now).store;
            && s[0].threadId == 1
            && Search.SearchEmails(s, Search.EmailFilter(Search.NoQueries, Some(userId), None, None, None, None), like)
               == Wrappers.Success(Search.Found(s, 1))
  {
    var s := SendEmail([], userId, to, subject, body, None, now).store;
    var f := Search.EmailFilter(Search.NoQueries, Some(userId), None, None, None, None);
    Seqs.FilterKeepsAll(s, e => Search.EmailMatches(like, f, e));
  }

  /** The new table and the confirmation text `create_calendar_event` returns. */
  datatype Created = Created(events: seq<Event>, reply: string)

  /** `create_calendar_event`: appends the event as given, whatever the order
      of its start and end; `render` is how a timestamp is printed. */
  function CreateCalendarEvent(events: seq<Event>, title: string, description: string,
                               startTime: int, endTime: int, render: int -> string): (r: Created)
    ensures |r.events| == |events| + 1 && r.events[..|events|] == events
    ensures r.events[|events|] == Event(title, description, startTime, endTime)
    ensures r.reply == "Calendar event created: " + title + " from " + render(startTime)
                       + " to " + render(endTime) + "."
  {
    Created(events + [Event(title, description, startTime, endTime)],
            "Calendar event created: " + title + " from " + render(startTime) + " to " + render(endTime) + ".")
  }

  /** A created event is visible to the calendar search: an unfiltered search
      returns one more row, and a search bounded below by its start time finds
      it, even when it ends before it starts. */
  lemma CreatedEventIsFound(events: seq<Event>, title: string, description: string,
                            startTime: int, endTime: int, render: int -> string,
                            like: (string, string) -> bool)
    ensures var r := CreateCalendarEvent(events, title, description, startTime, endTime, render).events;
            && Search.SearchCalendarEvents(r, Search.EventFilter(Search.NoQueries, None, None), like).value.count
               == Search.SearchCalendarEvents(events, Search.EventFilter(Search.NoQueries, None, None), like).value.count + 1
            && Event(title, description, startTime, endTime)
               in Search.SearchCalendarEvents(r, Search.EventFilter(Search.NoQueries, Some(startTime), None), like).value.results
  {
    var r := CreateCalendarEvent(events, title, description, startTime, endTime, render).events;
    var none := Search.EventFilter(Search.NoQueries, None, None);
    Search.AllEventsWithoutFilter(r, none, like);
    Search.AllEventsWithoutFilter(events, none, like);
  }
}
