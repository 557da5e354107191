/** The ticket list: four filters read by a debounced fetch, the fetched
    tickets, a per-ticket status change, and the AI solution panel.

    The debounce is modelled on discrete events: a clock that the
    environment advances, and the runtime's queue of pending timers, which the
    effect's cleanup empties of its own timer before the effect schedules the
    next one. A fetch is issued when a timer fires and completes as a separate
    event. */
module TicketList {
  import opened Common
  import opened Tickets
  import opened Http
  import Seqs
  import FormUrlencoded

  // ---------------------------------------------------------- the query

  /** The four filter values the list holds; `""` means "all". */
  datatype Filters = Filters(search: string, status: string, priority: string, category: string)

  const NoFilters: Filters := Filters("", "", "", "")

  /** Every filter as a query pair, in the order the query is built. */
  function AllParams(f: Filters): FormUrlencoded.Pairs {
    [("search", f.search), ("status", f.status), ("priority", f.priority), ("category", f.category)]
  }

  function HasValue(p: (string, string)): bool { p.1 != "" }

  /** The query pairs `fetchTickets` sends: the non-empty filters, in the fixed order. */
  function QueryParams(f: Filters): FormUrlencoded.Pairs {
    Seqs.Filter(AllParams(f), HasValue)
  }

  /** `fetchTickets` building its `URLSearchParams` by appending, one filter at a time. */
  method BuildParams(f: Filters) returns (params: FormUrlencoded.Pairs)
    ensures params == QueryParams(f)
  {
    params := [];
    if f.search != "" {
      params := params + [("search", f.search)];
    }
    if f.status != "" {
      params := params + [("status", f.status)];
    }
    if f.priority != "" {
      params := params + [("priority", f.priority)];
    }
    if f.category != "" {
      params := params + [("category", f.category)];
    }
    QueryParamsUnfold(f);
  }

  lemma FilterStep<T>(s: seq<T>, p: T -> bool)
    requires s != []
    ensures Seqs.Filter(s, p) == (if p(s[0]) then [s[0]] else []) + Seqs.Filter(s[1..], p)
  {
  }

  /** A filter value as it goes out: an empty one is not sent. */
  function Sent(v: string): (r: Option<string>)
    ensures Truthy(r) <==> v != ""
    ensures Truthy(r) ==> r.value == v
  {
    if v == "" then None else Some(v)
  }

  /** The query pairs one filter contributes: its key with the value it is sent with, if any. */
  function Opt(key: string, value: string): FormUrlencoded.Pairs {
    match Sent(value)
    case None => []
    case Some(v) => [(key, v)]
  }

  /** Helper: the filter over the four pairs, written out. */
  lemma QueryParamsUnfold(f: Filters)
    ensures QueryParams(f) == Opt("search", f.search) + (Opt("status", f.status)
                              + (Opt("priority", f.priority) + Opt("category", f.category)))
  {
    var s0 := AllParams(f);
    var s1, s2, s3 := s0[1..], s0[2..], s0[3..];
    assert s3 == [("category", f.category)] && s3[1..] == [];
    FilterStep(s3, HasValue);
    var r3 := Seqs.Filter(s3, HasValue);
    assert r3 == Opt("category", f.category);
    assert s2[0] == ("priority", f.priority) && s2[1..] == s3;
    FilterStep(s2, HasValue);
    var r2 := Seqs.Filter(s2, HasValue);
    assert r2 == Opt("priority", f.priority) + r3;
    assert s1[0] == ("status", f.status) && s1[1..] == s2;
    FilterStep(s1, HasValue);
    var r1 := Seqs.Filter(s1, HasValue);
    assert r1 == Opt("status", f.status) + r2;
    assert s0[0] == ("search", f.search) && s0[1..] == s1;
    FilterStep(s0, HasValue);
    assert Seqs.Filter(s0, HasValue) == Opt("search", f.search) + r1;
    assert QueryParams(f) == Seqs.Filter(s0, HasValue);
  }

  /** A key is sent exactly when its filter is non-empty, with that value, in the
      order search, status, priority, category; no filters give an empty query. */
  lemma QueryParamsShape(f: Filters)
    ensures var ps := QueryParams(f);
      && (forall i :: 0 <= i < |ps| ==> ps[i].1 != "")
      && (("search", f.search) in ps <==> f.search != "")
      && (("status", f.status) in ps <==> f.status != "")
      && (("priority", f.priority) in ps <==> f.priority != "")
      && (("category", f.category) in ps <==> f.category != "")
      && Seqs.IsSubsequence(ps, AllParams(f))
      && (FormUrlencoded.Serialize(ps) == "" <==> f == NoFilters)
  {
    var all := AllParams(f);
    var ps := QueryParams(f);
    Seqs.FilterIsSubsequence(all, HasValue);
    assert all[0] == ("search", f.search) && all[1] == ("status", f.status);
    assert all[2] == ("priority", f.priority) && all[3] == ("category", f.category);
    if f != NoFilters {
      assert exists i :: 0 <= i < |all| && HasValue(all[i]);
    }
  }

  /** The URL of a ticket fetch. */
  function FetchUrl(f: Filters): string {
    "/tickets/?" + FormUrlencoded.Serialize(QueryParams(f))
  }

  /** A name or value written in unreserved characters only, which the
      serializer leaves as it is. */
  predicate Plain(s: string) {
    forall k :: 0 <= k < |s| ==> FormUrlencoded.Unreserved(s[k] as int)
  }

  /** Only search and status chosen, each written in unreserved characters:
      the query string is `search=<search>&status=<status>`, with no priority
      or category key. */
  lemma SearchStatusUrl(search: string, status: string)
    requires search != "" && status != ""
    requires Plain(search) && Plain(status)
    ensures FetchUrl(Filters(search, status, "", "")) == "/tickets/?search=" + search + "&status=" + status
  {
    SearchStatusParams(search, status);
    PlainWords();
    SerializeTwo("search", search, "status", status);
    StringJoin(search, status);
  }

  /** Helper: two pairs of plain strings serialized. */
  lemma SerializeTwo(k1: string, v1: string, k2: string, v2: string)
    requires Plain(k1) && Plain(v1) && Plain(k2) && Plain(v2)
    ensures FormUrlencoded.Serialize([(k1, v1), (k2, v2)]) == (k1 + "=" + v1) + "&" + (k2 + "=" + v2)
  {
    var ps := [(k1, v1), (k2, v2)];
    assert FormUrlencoded.Serialize(ps) == FormUrlencoded.Pair(ps[0]) + "&" + FormUrlencoded.Pair(ps[1]) by {
      assert ps[1..] == [ps[1]];
    }
    FormUrlencoded.EncodeUnreserved(k1);
    FormUrlencoded.EncodeUnreserved(v1);
    FormUrlencoded.EncodeUnreserved(k2);
    FormUrlencoded.EncodeUnreserved(v2);
  }

  /** Helper: regrouping the pieces of the URL. */
  lemma StringJoin(search: string, status: string)
    ensures "/tickets/?" + (("search" + "=" + search) + "&" + ("status" + "=" + status))
            == "/tickets/?search=" + search + "&status=" + status
  {
    assert "/tickets/?" + "search" + "=" == "/tickets/?search=";
    assert "&" + "status" + "=" == "&status=";
  }

  /** Helper: the pairs sent for a search and a status alone. */
  lemma SearchStatusParams(search: string, status: string)
    requires search != "" && status != ""
    ensures QueryParams(Filters(search, status, "", "")) == [("search", search), ("status", status)]
  {
    var f := Filters(search, status, "", "");
    QueryParamsUnfold(f);
    assert Opt("priority", "") == [] && Opt("category", "") == [];
    assert Opt("search", search) == [("search", search)];
    assert Opt("status", status) == [("status", status)];
  }

  /** Helper: the keys and the example's words are written in unreserved characters. */
  lemma PlainWords()
    ensures Plain("search") && Plain("status") && Plain("billing") && Plain("open")
  {
    var a, b, c, d := "search", "status", "billing", "open";
    assert a == ['s', 'e', 'a', 'r', 'c', 'h'];
    assert b == ['s', 't', 'a', 't', 'u', 's'];
    assert c == ['b', 'i', 'l', 'l', 'i', 'n', 'g'];
    assert d == ['o', 'p', 'e', 'n'];
  }

  /** Searching for "billing" among open tickets asks for `search=billing&status=open`. */
  lemma BillingOpenUrl(f: Filters)
    requires f.search == "billing" && f.status == "open" && f.priority == "" && f.category == ""
    ensures FetchUrl(f) == "/tickets/?search=billing&status=open"
  {
    PlainWords();
    SearchStatusUrl(f.search, f.status);
    BillingOpenJoin();
  }

  /** Helper: the example URL, assembled. */
  lemma BillingOpenJoin()
    ensures "/tickets/?search=" + "billing" + "&status=" + "open" == "/tickets/?search=billing&status=open"
  {
  }

  /** Reading the query back gives exactly the non-empty filters. */
  lemma FetchUrlQuery(f: Filters)
    ensures FetchUrl(f)[..10] == "/tickets/?"
    ensures FormUrlencoded.Parse(FetchUrl(f)[10..]) == Some(QueryParams(f))
  {
    assert FetchUrl(f)[10..] == FormUrlencoded.Serialize(QueryParams(f));
    FormUrlencoded.ParseSerialize(QueryParams(f));
  }

  // ------------------------------------------------------------ options

  /** The options of the three filter selects besides "All", and of each ticket's status select. */
  const StatusFilterOptions: seq<string> := ["open", "in_progress", "resolved"]
  const PriorityFilterOptions: seq<string> := ["low", "medium", "high", "critical"]
  const CategoryFilterOptions: seq<string> := ["technical", "billing", "account"]
  const TicketStatusOptions: seq<string> := ["open", "in_progress", "resolved", "closed"]

  /** The values each filter select can take. */
  predicate Selectable(v: string, opts: seq<string>) {
    v == "" || v in opts
  }

  /** The filter controls have no "closed" status and no "general" category; a
      ticket's own status select offers every status. */
  lemma OptionLists()
    ensures !Selectable("closed", StatusFilterOptions) && "closed" in Statuses
    ensures !Selectable("general", CategoryFilterOptions) && "general" in Categories
    ensures forall s :: s in Statuses <==> s in TicketStatusOptions
    ensures forall p :: p in Priorities <==> p in PriorityFilterOptions
  {
  }

  // ------------------------------------------------------- presentation

  const CriticalColor: string := "bg-red-500/20 text-red-400 border-red-500/30"
  const HighColor: string := "bg-orange-500/20 text-orange-400 border-orange-500/30"
  const MediumColor: string := "bg-blue-500/20 text-blue-400 border-blue-500/30"
  const DefaultColor: string := "bg-slate-500/20 text-slate-400 border-slate-500/30"

  /** `getPriorityColor`: its own style for each of critical, high and medium,
      one shared style for low and anything else. */
  function PriorityColor(p: string): (c: string)
    ensures c == DefaultColor <==> p != "critical" && p != "high" && p != "medium"
  {
    match p
    case "critical" => CriticalColor
    case "high" => HighColor
    case "medium" => MediumColor
    case _ => DefaultColor
  }

  /** Two priorities share a style only when neither is critical, high or medium. */
  lemma PriorityColorsDistinct(p: string, q: string)
    requires p != q && PriorityColor(p) == PriorityColor(q)
    ensures PriorityColor(p) == DefaultColor
  {
  }

  /** The solution text after the request: what the server sent, or the fixed
      message when the request was rejected. `reply` is the `solution` field
      of a resolved response, or `None` for a rejection. */
  const SolutionFailure: string := "AI could not generate a solution."

  function SolutionAfter(reply: Option<string>): (s: Option<string>)
    ensures s.Some?
    ensures reply.Some? ==> s == reply
    ensures reply.None? ==> s.value == SolutionFailure && Truthy(s)
  {
    if reply.Some? then reply else Some(SolutionFailure)
  }

  /** The insight panel is rendered while `solution` is truthy. */
  predicate PanelShown(solution: Option<string>) {
    Truthy(solution)
  }

  /** A failed request always opens the panel, with the fixed message. */
  lemma FailureShowsPanel()
    ensures PanelShown(SolutionAfter(None))
  {
  }

  // ----------------------------------------------------------- the component

  /** The debounce delay in milliseconds. */
  const Debounce: nat := 300

  /** A pending `setTimeout`: when it fires, and the filters of the render that
      set it, which its callback's fetch sends. */
  datatype Timer = Timer(deadline: nat, filters: Filters)

  /** A status change: the PATCH of one ticket's `status`. */
  datatype StatusPatch = StatusPatch(id: int, status: string)

  class TicketListComponent {
    var tickets: seq<Ticket>
    var search: string
    var statusFilter: string
    var priorityFilter: string
    var categoryFilter: string
    var solution: Option<string>
    var loadingSolution: bool
    /** The parent's refresh counter, a dependency of the debounce effect. */
    var refreshTrigger: nat
    /** The environment's clock, in milliseconds, and its pending timers. */
    var now: nat
    var timers: seq<Timer>

    function CurrentFilters(): Filters
      reads this
    {
      Filters(search, statusFilter, priorityFilter, categoryFilter)
    }

    /** At most one timer is pending; it is due no more than the debounce delay
        from now, and it fetches with the filters as they are. The filters hold
        values their selects offer. */
    predicate Valid()
      reads this
    {
      && |timers| <= 1
      && (forall i :: 0 <= i < |timers| ==>
            timers[i].filters == CurrentFilters() && timers[i].deadline <= now + Debounce)
      && Selectable(statusFilter, StatusFilterOptions)
      && Selectable(priorityFilter, PriorityFilterOptions)
      && Selectable(categoryFilter, CategoryFilterOptions)
    }

    /** Mounting renders the empty list and runs the effect once. */
    constructor (trigger: nat)
      ensures Valid()
      ensures tickets == [] && CurrentFilters() == NoFilters && solution == None && !loadingSolution
      ensures refreshTrigger == trigger && now == 0
      ensures timers == [Timer(Debounce, NoFilters)]
    {
      tickets := [];
      search, statusFilter, priorityFilter, categoryFilter := "", "", "", "";
      solution := None;
      loadingSolution := false;
      refreshTrigger := trigger;
      now := 0;
      timers := [Timer(Debounce, NoFilters)];
    }

    /** The effect after a dependency changed: the cleanup clears the pending
        timer, then a new one is set for the current filters. */
    method RunEffect()
      requires |timers| <= 1
      modifies this
      ensures timers == [Timer(now + Debounce, CurrentFilters())]
      ensures tickets == old(tickets) && CurrentFilters() == old(CurrentFilters())
      ensures solution == old(solution) && loadingSolution == old(loadingSolution)
      ensures refreshTrigger == old(refreshTrigger) && now == old(now)
    {
      timers := [];
      timers := timers + [Timer(now + Debounce, CurrentFilters())];
    }

    /** The search input. Setting the value it already has does not re-render,
        so the effect does not run again. */
    method SetSearch(v: string)
      requires Valid()
      modifies this
      ensures Valid()
      ensures CurrentFilters() == old(CurrentFilters()).(search := v)
      ensures v != old(search) ==> timers == [Timer(now + Debounce, CurrentFilters())]
      ensures v == old(search) ==> timers == old(timers)
      ensures tickets == old(tickets) && solution == old(solution) && loadingSolution == old(loadingSolution)
      ensures refreshTrigger == old(refreshTrigger) && now == old(now)
    {
      if v != search {
        search := v;
        RunEffect();
      }
    }

    method SetStatusFilter(v: string)
      requires Valid() && Selectable(v, StatusFilterOptions)
      modifies this
      ensures Valid()
      ensures CurrentFilters() == old(CurrentFilters()).(status := v)
      ensures v != old(statusFilter) ==> timers == [Timer(now + Debounce, CurrentFilters())]
      ensures v == old(statusFilter) ==> timers == old(timers)
      ensures tickets == old(tickets) && solution == old(solution) && loadingSolution == old(loadingSolution)
      ensures refreshTrigger == old(refreshTrigger) && now == old(now)
    {
      if v != statusFilter {
        statusFilter := v;
        RunEffect();
      }
    }

    method SetPriorityFilter(v: string)
      requires Valid() && Selectable(v, PriorityFilterOptions)
      modifies this
      ensures Valid()
      ensures CurrentFilters() == old(CurrentFilters()).(priority := v)
      ensures v != old(priorityFilter) ==> timers == [Timer(now + Debounce, CurrentFilters())]
      ensures v == old(priorityFilter) ==> timers == old(timers)
      ensures tickets == old(tickets) && solution == old(solution) && loadingSolution == old(loadingSolution)
      ensures refreshTrigger == old(refreshTrigger) && now == old(now)
    {
      if v != priorityFilter {
        priorityFilter := v;
        RunEffect();
      }
    }

    method SetCategoryFilter(v: string)
      requires Valid() && Selectable(v, CategoryFilterOptions)
      modifies this
      ensures Valid()
      ensures CurrentFilters() == old(CurrentFilters()).(category := v)
      ensures v != old(categoryFilter) ==> timers == [Timer(now + Debounce, CurrentFilters())]
      ensures v == old(categoryFilter) ==> timers == old(timers)
      ensures tickets == old(tickets) && solution == old(solution) && loadingSolution == old(loadingSolution)
      ensures refreshTrigger == old(refreshTrigger) && now == old(now)
    {
      if v != categoryFilter {
        categoryFilter := v;
        RunEffect();
      }
    }

    /** A new `refreshTrigger` from the parent. */
    method SetRefreshTrigger(v: nat)
      requires Valid()
      modifies this
      ensures Valid()
      ensures refreshTrigger == v && CurrentFilters() == old(CurrentFilters())
      ensures v != old(refreshTrigger) ==> timers == [Timer(now + Debounce, CurrentFilters())]
      ensures v == old(refreshTrigger) ==> timers == old(timers)
      ensures tickets == old(tickets) && solution == old(solution) && loadingSolution == old(loadingSolution)
      ensures now == old(now)
    {
      if v != refreshTrigger {
        refreshTrigger := v;
        RunEffect();
      }
    }

    /** Time passes; a timer that falls due fires and issues its fetch. */
    method Advance(dt: nat) returns (fetch: Option<string>)
      requires Valid()
      modifies this
      ensures Valid()
      ensures now == old(now) + dt
      ensures fetch.Some? <==> old(timers) != [] && old(timers)[0].deadline <= now
      ensures fetch.Some? ==> fetch.value == FetchUrl(CurrentFilters()) && timers == []
      ensures fetch.None? ==> timers == old(timers)
      ensures tickets == old(tickets) && CurrentFilters() == old(CurrentFilters())
      ensures solution == old(solution) && loadingSolution == old(loadingSolution)
      ensures refreshTrigger == old(refreshTrigger)
    {
      var fire := timers != [] && timers[0].deadline <= now + dt;
      now := now + dt;
      if fire {
        // the callback fetches with the filters its effect captured
        var captured := timers[0].filters;
        fetch := Some(FetchUrl(captured));
        timers := [];
      } else {
        fetch := None;
      }
    }

    /** A ticket fetch completes: a resolved response replaces the list
        wholesale; a rejection (logged) leaves it as it was. */
    method FetchDone(response: Option<Response<seq<Ticket>>>)
      modifies this
      ensures var r := Resolve(response);
        tickets == if r.Some? then r.value else old(tickets)
      ensures CurrentFilters() == old(CurrentFilters()) && timers == old(timers) && now == old(now)
      ensures solution == old(solution) && loadingSolution == old(loadingSolution)
      ensures refreshTrigger == old(refreshTrigger)
    {
      var r := Resolve(response);
      if r.Some? {
        tickets := r.value;
      }
    }

    /** The "Ask AI" click up to the `await`: nothing while the buttons are
        disabled, otherwise the panel closes, the buttons disable and the
        ticket's description is sent. */
    method StartSolution(description: string) returns (request: Option<string>)
      modifies this
      ensures request.Some? <==> !old(loadingSolution)
      ensures request.Some? ==> request.value == description && loadingSolution && solution == None
      ensures request.None? ==> solution == old(solution) && loadingSolution == old(loadingSolution)
      ensures tickets == old(tickets) && CurrentFilters() == old(CurrentFilters())
      ensures timers == old(timers) && now == old(now) && refreshTrigger == old(refreshTrigger)
    {
      if loadingSolution {
        return None;
      }
      loadingSolution := true;
      solution := None;
      request := Some(description);
    }

    /** `getSolution` after the `await` and its `finally`. */
    method FinishSolution(reply: Option<string>)
      modifies this
      ensures solution == SolutionAfter(reply) && !loadingSolution
      ensures tickets == old(tickets) && CurrentFilters() == old(CurrentFilters())
      ensures timers == old(timers) && now == old(now) && refreshTrigger == old(refreshTrigger)
    {
      if reply.Some? {
        solution := reply;
      } else {
        solution := Some(SolutionFailure);
      }
      loadingSolution := false;
    }

    /** The panel's Close button. */
    method Dismiss()
      modifies this
      ensures solution == None && !PanelShown(solution)
      ensures loadingSolution == old(loadingSolution)
      ensures tickets == old(tickets) && CurrentFilters() == old(CurrentFilters())
      ensures timers == old(timers) && now == old(now) && refreshTrigger == old(refreshTrigger)
    {
      solution := None;
    }

    /** `updateStatus`: the PATCH, then, only if it resolved, one fetch with the
        filters of the render the handler came from. A rejected PATCH ends the
        handler with the rejection unhandled. */
    method UpdateStatus(id: int, newStatus: string, patchResolved: bool)
      returns (patch: StatusPatch, fetches: seq<string>)
      ensures patch == StatusPatch(id, newStatus)
      ensures fetches == if patchResolved then [FetchUrl(CurrentFilters())] else []
    {
      patch := StatusPatch(id, newStatus);
      fetches := [];
      if patchResolved {
        var params := BuildParams(CurrentFilters());
        fetches := fetches + ["/tickets/?" + FormUrlencoded.Serialize(params)];
      }
    }
  }
}
