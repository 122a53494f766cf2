/** The two read-only search tools: every argument is an optional filter, the
    filter categories are combined with AND, the query tokens with OR. LIKE
    matching is left abstract: the caller supplies it as `like(pattern, value)`. */
module Search {
  import opened Wrappers
  import opened Records
  import opened Tokens
  import Seqs

  /** The `queries` argument: missing, one string, or a list of strings. */
  datatype Queries = NoQueries | OneQuery(query: string) | QueryList(queries: seq<string>)

  /** Python truthiness of `queries`: an empty string and an empty list are falsy. */
  predicate QueriesGiven(q: Queries)
  {
    match q
    case NoQueries => false
    case OneQuery(s) => s != ""
    case QueryList(qs) => qs != []
  }

  /** A single string is wrapped in a list before tokenising. */
  function QueryStrings(q: Queries): seq<string>
  {
    match q
    case NoQueries => []
    case OneQuery(s) => [s]
    case QueryList(qs) => qs
  }

  /** The tokens the query arguments produce. */
  function SearchTokens(q: Queries): seq<string>
  {
    QueryTokens(QueryStrings(q))
  }

  /** The pattern `%tok%` bound for each LIKE test. */
  function Contains(tok: string): string
  {
    "%" + tok + "%"
  }

  /** Python truthiness of a text filter: missing and empty strings apply no filter. */
  predicate TextGiven(s: Option<string>)
  {
    s.Some? && s.value != ""
  }

  /** Python truthiness of the thread filter: missing and 0 apply no filter. */
  predicate ThreadGiven(t: Option<int>)
  {
    t.Some? && t.value != 0
  }

  /** What a search returns: the matching rows and their number. */
  datatype Found<T> = Found(results: seq<T>, count: nat)

  /** The SQL error raised when truthy queries yield no token and the WHERE clause reads `()`. */
  const EmptyGroupError: string := "near \")\": syntax error"

  // ---------------------------------------------------------------- emails

  /** The arguments of `search_emails`. Date filters are always truthy when present. */
  datatype EmailFilter = EmailFilter(
    queries: Queries,
    sender: Option<string>,
    recipient: Option<string>,
    startDate: Option<int>,
    endDate: Option<int>,
    threadId: Option<int>)

  /** One token matches subject, body, sender or recipient. */
  predicate EmailHasToken(like: (string, string) -> bool, tok: string, e: Email)
  {
    || like(Contains(tok), e.subject)
    || like(Contains(tok), e.body)
    || like(Contains(tok), e.sender)
    || like(Contains(tok), e.recipient)
  }

  /** The WHERE clause of `search_emails` for one row. */
  predicate EmailMatches(like: (string, string) -> bool, f: EmailFilter, e: Email)
  {
    var toks := SearchTokens(f.queries);
    && (QueriesGiven(f.queries) ==> exists i :: 0 <= i < |toks| && EmailHasToken(like, toks[i], e))
    && (TextGiven(f.sender) ==> like(Contains(f.sender.value), e.sender))
    && (TextGiven(f.recipient) ==> like(Contains(f.recipient.value), e.recipient))
    && (f.startDate.Some? ==> e.timestamp >= f.startDate.value)
    && (f.endDate.Some? ==> e.timestamp < f.endDate.value)
    && (ThreadGiven(f.threadId) ==> e.threadId == f.threadId.value)
  }

  /** `search_emails`: every row satisfying the WHERE clause, in table order,
      and their count; an SQL error when truthy queries yield no token. */
  function SearchEmails(store: seq<Email>, f: EmailFilter, like: (string, string) -> bool)
    : (r: Result<Found<Email>>)
    ensures r.Failure? <==> QueriesGiven(f.queries) && SearchTokens(f.queries) == []
    ensures r.Success? ==> r.value.count == |r.value.results| <= |store|
    ensures r.Success? ==>
              forall e :: e in r.value.results <==> e in store && EmailMatches(like, f, e)
    ensures r.Success? ==>
              forall e :: multiset(r.value.results)[e] ==
                            if EmailMatches(like, f, e) then multiset(store)[e] else 0
  {
    if QueriesGiven(f.queries) && SearchTokens(f.queries) == [] then Failure(EmptyGroupError)
    else
      var rows := Seqs.Filter(store, e => EmailMatches(like, f, e));
      Success(Found(rows, |rows|))
  }

  /** No truthy argument: no WHERE clause. */
  predicate NoEmailFilter(f: EmailFilter)
  {
    !QueriesGiven(f.queries) && !TextGiven(f.sender) && !TextGiven(f.recipient)
    && f.startDate.None? && f.endDate.None? && !ThreadGiven(f.threadId)
  }

  /** Without a truthy filter every row is returned, in table order. */
  lemma AllEmailsWithoutFilter(store: seq<Email>, f: EmailFilter, like: (string, string) -> bool)
    requires NoEmailFilter(f)
    ensures SearchEmails(store, f, like) == Success(Found(store, |store|))
  {
    Seqs.FilterKeepsAll(store, e => EmailMatches(like, f, e));
  }

  /** `g` keeps every truthy filter of `f` and may add more. */
  predicate EmailNarrows(g: EmailFilter, f: EmailFilter)
  {
    && (QueriesGiven(f.queries) ==> g.queries == f.queries)
    && (TextGiven(f.sender) ==> g.sender == f.sender)
    && (TextGiven(f.recipient) ==> g.recipient == f.recipient)
    && (f.startDate.Some? ==> g.startDate == f.startDate)
    && (f.endDate.Some? ==> g.endDate == f.endDate)
    && (ThreadGiven(f.threadId) ==> g.threadId == f.threadId)
  }

  /** Adding truthy filters never increases the number of results. */
  lemma EmailFiltersNarrow(store: seq<Email>, f: EmailFilter, g: EmailFilter, like: (string, string) -> bool)
    requires EmailNarrows(g, f)
    requires SearchEmails(store, g, like).Success?
    ensures SearchEmails(store, f, like).Success?
    ensures SearchEmails(store, g, like).value.count <= SearchEmails(store, f, like).value.count
  {
    Seqs.FilterWeaker(store, e => EmailMatches(like, g, e), e => EmailMatches(like, f, e));
  }

  /** A thread id of 0 is falsy and filters nothing. */
  lemma ZeroThreadIdIsNoFilter(store: seq<Email>, f: EmailFilter, like: (string, string) -> bool)
    ensures SearchEmails(store, f.(threadId := Some(0)), like) == SearchEmails(store, f.(threadId := None), like)
  {
    var g, h := f.(threadId := Some(0)), f.(threadId := None);
    Seqs.FilterSame(store, e => EmailMatches(like, g, e), e => EmailMatches(like, h, e));
  }

  /** The start date is inclusive and the end date exclusive: a row stamped
      exactly at the start bound is kept if the rest of the filter keeps it,
      and a row stamped exactly at the end bound is always dropped. */
  lemma EmailDateBounds(store: seq<Email>, f: EmailFilter, like: (string, string) -> bool, e: Email)
    requires e in store
    requires SearchEmails(store, f, like).Success?
    ensures e in SearchEmails(store, f.(startDate := Some(e.timestamp)), like).value.results
        <==> e in SearchEmails(store, f.(startDate := None), like).value.results
    ensures e !in SearchEmails(store, f.(endDate := Some(e.timestamp)), like).value.results
  {
  }

  // ---------------------------------------------------------------- calendar events

  /** The arguments of `search_calendar_events`. */
  datatype EventFilter = EventFilter(queries: Queries, startDate: Option<int>, endDate: Option<int>)

  /** One token matches title or description. */
  predicate EventHasToken(like: (string, string) -> bool, tok: string, ev: Event)
  {
    like(Contains(tok), ev.title) || like(Contains(tok), ev.description)
  }

  /** The WHERE clause of `search_calendar_events` for one row; the end
      bound is compared with the event's end time. */
  predicate EventMatches(like: (string, string) -> bool, f: EventFilter, ev: Event)
  {
    var toks := SearchTokens(f.queries);
    && (QueriesGiven(f.queries) ==> exists i :: 0 <= i < |toks| && EventHasToken(like, toks[i], ev))
    && (f.startDate.Some? ==> ev.startTime >= f.startDate.value)
    && (f.endDate.Some? ==> ev.endTime < f.endDate.value)
  }

  /** `search_calendar_events`: every event satisfying the WHERE clause, in
      table order, and their count; an SQL error when truthy queries yield no token. */
  function SearchCalendarEvents(events: seq<Event>, f: EventFilter, like: (string, string) -> bool)
    : (r: Result<Found<Event>>)
    ensures r.Failure? <==> QueriesGiven(f.queries) && SearchTokens(f.queries) == []
    ensures r.Success? ==> r.value.count == |r.value.results| <= |events|
    ensures r.Success? ==>
              forall ev :: ev in r.value.results <==> ev in events && EventMatches(like, f, ev)
    ensures r.Success? ==>
              forall ev :: multiset(r.value.results)[ev] ==
                             if EventMatches(like, f, ev) then multiset(events)[ev] else 0
  {
    if QueriesGiven(f.queries) && SearchTokens(f.queries) == [] then Failure(EmptyGroupError)
    else
      var rows := Seqs.Filter(events, ev => EventMatches(like, f, ev));
      Success(Found(rows, |rows|))
  }

  /** No truthy argument: no WHERE clause. */
  predicate NoEventFilter(f: EventFilter)
  {
    !QueriesGiven(f.queries) && f.startDate.None? && f.endDate.None?
  }

  /** Without a truthy filter every event is returned, in table order. */
  lemma AllEventsWithoutFilter(events: seq<Event>, f: EventFilter, like: (string, string) -> bool)
    requires NoEventFilter(f)
    ensures SearchCalendarEvents(events, f, like) == Success(Found(events, |events|))
  {
    Seqs.FilterKeepsAll(events, ev => EventMatches(like, f, ev));
  }

  /** `g` keeps every truthy filter of `f` and may add more. */
  predicate EventNarrows(g: EventFilter, f: EventFilter)
  {
    && (QueriesGiven(f.queries) ==> g.queries == f.queries)
    && (f.startDate.Some? ==> g.startDate == f.startDate)
    && (f.endDate.Some? ==> g.endDate == f.endDate)
  }

  /** Adding truthy filters never increases the number of results. */
  lemma EventFiltersNarrow(events: seq<Event>, f: EventFilter, g: EventFilter, like: (string, string) -> bool)
    requires EventNarrows(g, f)
    requires SearchCalendarEvents(events, g, like).Success?
    ensures SearchCalendarEvents(events, f, like).Success?
    ensures SearchCalendarEvents(events, g, like).value.count
            <= SearchCalendarEvents(events, f, like).value.count
  {
    Seqs.FilterWeaker(events, ev => EventMatches(like, g, ev), ev => EventMatches(like, f, ev));
  }

  /** Start inclusive, end exclusive: an event starting exactly at the start
      bound is kept if the rest of the filter keeps it; an event ending exactly
      at the end bound is dropped; and so is one starting at the end bound,
      provided it does not end before it starts. */
  lemma EventDateBounds(events: seq<Event>, f: EventFilter, like: (string, string) -> bool, ev: Event)
    requires ev in events
    requires SearchCalendarEvents(events, f, like).Success?
    ensures ev in SearchCalendarEvents(events, f.(startDate := Some(ev.startTime)), like).value.results
        <==> ev in SearchCalendarEvents(events, f.(startDate := None), like).value.results
    ensures ev !in SearchCalendarEvents(events, f.(endDate := Some(ev.endTime)), like).value.results
    ensures ev.startTime <= ev.endTime ==>
              ev !in SearchCalendarEvents(events, f.(endDate := Some(ev.startTime)), like).value.results
  {
  }

  /** The end bound looks only at the end time: an event ending before the
      bound is kept even when it starts after the bound (an inverted event,
      which event creation does not prevent). */
  lemma EventEndBoundIgnoresStart(events: seq<Event>, like: (string, string) -> bool, ev: Event, bound: int)
    requires ev in events
    requires ev.endTime < bound <= ev.startTime
    ensures ev in SearchCalendarEvents(events, EventFilter(NoQueries, None, Some(bound)), like).value.results
  {
  }
}
