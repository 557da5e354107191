/** The page as a whole: what the front-end components send, what the back end
    makes of it, and what the components then show. */
module Dashboard {
  import opened Common
  import opened Tickets
  import opened Dicts
  import opened Http
  import Seqs
  import PyStrings
  import FormUrlencoded
  import TicketViews
  import TicketForm
  import TicketList
  import StatsDashboard

  // ------------------------------------------------- list to listing

  /** The back end's `query_params.get` of one filter's pairs: the value the
      filter is sent with under its own key, nothing under any other. */
  lemma QueryGetOpt(k: string, v: string, key: string)
    ensures TicketViews.QueryGet(TicketList.Opt(k, v), key) == if k == key then TicketList.Sent(v) else None
  {
  }

  /** The back end reads from the list's query exactly the list's non-empty filters. */
  lemma FiltersReachBackend(f: TicketList.Filters)
    ensures var ps := FormUrlencoded.Parse(TicketList.FetchUrl(f)[10..]);
      && ps == Some(TicketList.QueryParams(f))
      && TicketViews.FilterOf(ps.value)
         == TicketViews.TicketFilter(TicketList.Sent(f.category), TicketList.Sent(f.priority),
                                     TicketList.Sent(f.status), TicketList.Sent(f.search))
  {
    TicketList.FetchUrlQuery(f);
    QueryGetOfQuery(f, "category");
    QueryGetOfQuery(f, "priority");
    QueryGetOfQuery(f, "status");
    QueryGetOfQuery(f, "search");
  }

  /** Helper: the value the back end reads for one key of the list's query. */
  lemma QueryGetOfQuery(f: TicketList.Filters, key: string)
    ensures TicketViews.QueryGet(TicketList.QueryParams(f), key)
            == if key == "search" then TicketList.Sent(f.search) else if key == "status" then TicketList.Sent(f.status)
               else if key == "priority" then TicketList.Sent(f.priority) else if key == "category" then TicketList.Sent(f.category)
               else None
  {
    TicketList.QueryParamsUnfold(f);
    var a := TicketList.Opt("search", f.search);
    var b := TicketList.Opt("status", f.status);
    var c := TicketList.Opt("priority", f.priority);
    var d := TicketList.Opt("category", f.category);
    TicketViews.QueryGetAppend(c, d, key);
    TicketViews.QueryGetAppend(b, c + d, key);
    TicketViews.QueryGetAppend(a, b + (c + d), key);
    QueryGetOpt("search", f.search, key);
    QueryGetOpt("status", f.status, key);
    QueryGetOpt("priority", f.priority, key);
    QueryGetOpt("category", f.category, key);
  }

  /** A ticket is listed for the filters the list holds when it agrees with each
      non-empty filter, the search matching its title or its description. */
  predicate Shown(t: Ticket, f: TicketList.Filters) {
    && (f.category != "" ==> t.category == f.category)
    && (f.priority != "" ==> t.priority == f.priority)
    && (f.status != "" ==> t.status == f.status)
    && (f.search != "" ==> PyStrings.IContains(t.title, f.search) || PyStrings.IContains(t.description, f.search))
  }

  /** What a fetch of the list returns: a 200 with the back end's listing. */
  method ListingFor(all: seq<Ticket>, f: TicketList.Filters) returns (listing: seq<Ticket>)
    ensures listing == Seqs.Filter(TicketViews.NewestFirst(all), (t: Ticket) => Shown(t, f))
    ensures forall i :: 0 <= i < |listing| ==> listing[i] in all && Shown(listing[i], f)
    ensures forall i :: 0 <= i < |all| && Shown(all[i], f) ==> all[i] in listing
  {
    FiltersReachBackend(f);
    var params := FormUrlencoded.Parse(TicketList.FetchUrl(f)[10..]).value;
    listing := TicketViews.GetQueryset(all, params);
    var tf := TicketViews.FilterOf(params);
    TicketViews.FilterSame(TicketViews.NewestFirst(all), TicketViews.Keep(tf), (t: Ticket) => Shown(t, f));
    TicketViews.ListingCharacterized(all, tf);
  }

  /** The category filter has no "general" option, so a general ticket is only
      ever listed while the category filter is off. */
  lemma GeneralOnlyUnfiltered(f: TicketList.Filters, t: Ticket)
    requires TicketList.Selectable(f.category, TicketList.CategoryFilterOptions)
    requires t.category == "general" && Shown(t, f)
    ensures f.category == ""
  {
  }

  // ------------------------------------------------- stats to cards

  /** The statistics cards for a given ticket table. */
  method CardsFor(all: seq<Ticket>) returns (view: StatsDashboard.View)
    ensures view == StatsDashboard.Cards(|all|, multiset(TicketViews.StatusColumn(all))["open"],
                                         TicketViews.AvgPerDay(all),
                                         multiset(TicketViews.PriorityColumn(all))["critical"])
  {
    var st := TicketViews.Stats(all);
    var response := StatsDashboard.StatsResponse(st.totalTickets, st.openTickets, st.avgTicketsPerDay,
                                                 Some(st.priorityBreakdown));
    view := StatsDashboard.Render(Some(response));
    var pb := st.priorityBreakdown;
    assert "critical" in Priorities;
    assert "critical" in Keys(pb);
    var i :| 0 <= i < |pb| && Keys(pb)[i] == "critical";
    assert view.critical == pb[i].1;
    assert Get(pb, "critical") == pb[i].1;
  }

  // ------------------------------------------------- form to classify

  /** What the form receives from a classify response. */
  function OutcomeOf(response: Option<Response<TicketViews.Body>>): TicketForm.ClassifyOutcome {
    var body := Resolve(response);
    if body.Some? && body.value.ClassifyBody? then
      TicketForm.ClassifyOk(body.value.classification.suggestedCategory,
                            body.value.classification.suggestedPriority)
    else
      TicketForm.ClassifyFail
  }

  /** The form only sends a description it has checked, so the back end never
      answers its classify request with the 400; and whatever the model does,
      the form reaches the review step with the model's suggestions where it
      gave usable ones and general/medium otherwise. */
  lemma AnalysisEndToEnd(f: TicketForm.Form, llm: TicketViews.LlmReply,
                         parse: string -> Option<TicketViews.Classification>)
    requires TicketForm.BeginAnalysis(f).1.Some?
    ensures var response := TicketViews.Classify(Some(TicketForm.BeginAnalysis(f).1.value), llm, parse);
      && response.status == 200
      && var g := TicketForm.EndAnalysis(TicketForm.BeginAnalysis(f).0, OutcomeOf(Some(response)));
      && g.step == TicketForm.Review && TicketForm.Valid(g)
      && g.title == f.title && g.description == f.description
      && (llm.LlmError? || parse(TicketViews.CleanJsonText(llm.text)).None? ==>
            g.category == "general" && g.priority == "medium")
      && (llm.Reply? && parse(TicketViews.CleanJsonText(llm.text)).Some? ==>
            var c := parse(TicketViews.CleanJsonText(llm.text)).value;
            g.category == OrElse(c.suggestedCategory, "general")
            && g.priority == OrElse(c.suggestedPriority, "medium"))
  {
  }

  // ------------------------------------------------- list to suggest_solution

  /** What the list receives from a solution response: the `solution` field of
      a resolved response, or `None` for a rejection. */
  function SolutionReply(response: Option<Response<TicketViews.Body>>): Option<string> {
    var body := Resolve(response);
    if body.Some? && body.value.SolutionBody? then Some(body.value.solution) else None
  }

  /** The solution becomes the stripped reply of the model, and the panel opens
      exactly when that is non-empty: an all-white-space reply leaves it closed.
      When the model fails or the ticket has no description, the solution is the
      list's own fixed message, not the back end's 500 text, and the panel opens. */
  lemma SolutionEndToEnd(description: string, llm: TicketViews.LlmReply)
    ensures var shown := TicketList.SolutionAfter(SolutionReply(Some(TicketViews.SuggestSolution(Some(description), llm))));
      && (description != "" && llm.Reply? ==>
            shown == Some(PyStrings.Strip(llm.text))
            && (TicketList.PanelShown(shown) <==> PyStrings.Strip(llm.text) != ""))
      && (description == "" || llm.LlmError? ==>
            shown == Some(TicketList.SolutionFailure) && TicketList.PanelShown(shown))
  {
    TicketList.FailureShowsPanel();
  }
}
