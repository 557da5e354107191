/** The back end's ticket view set: the filtered, newest-first listing, the
    aggregate statistics, and the two AI endpoints with their guards and
    fallbacks. The ticket table is a sequence of records; the language model
    is a parameter whose reply is either a text or an error. */
module TicketViews {
  import opened Common
  import opened Tickets
  import opened Seqs
  import opened Dicts
  import opened PyStrings
  import opened Http
  import FormUrlencoded

  // ------------------------------------------------------------ listing

  function CreatedAt(t: Ticket): int { t.createdAt }

  /** The view set's base query set, `Ticket.objects.all().order_by('-created_at')`.
      The database leaves the order of equal timestamps open; this model keeps
      the table order among them. */
  function NewestFirst(all: seq<Ticket>): (r: seq<Ticket>)
    ensures SortedDesc(r, CreatedAt)
    ensures multiset(r) == multiset(all)
  {
    SortDesc(all, CreatedAt)
  }

  /** `request.query_params.get(key)`: the last value given for `key`, if any. */
  function QueryGet(params: FormUrlencoded.Pairs, key: string): (v: Option<string>)
    ensures v.None? <==> forall i :: 0 <= i < |params| ==> params[i].0 != key
    ensures v.Some? ==> exists i :: 0 <= i < |params| && params[i] == (key, v.value)
                                    && forall j :: i < j < |params| ==> params[j].0 != key
    decreases |params|
  {
    if params == [] then None
    else
      var last := params[|params| - 1];
      if last.0 == key then Some(last.1)
      else
        var init := params[..|params| - 1];
        var v := QueryGet(init, key);
        if v.Some? then
          var i :| 0 <= i < |init| && init[i] == (key, v.value)
                   && forall j :: i < j < |init| ==> init[j].0 != key;
          assert params[i] == init[i];
          Some(v.value)
        else
          None
  }

  /** A later value of a key hides every earlier one. */
  lemma {:induction false} QueryGetAppend(a: FormUrlencoded.Pairs, b: FormUrlencoded.Pairs, key: string)
    ensures QueryGet(a + b, key) == if QueryGet(b, key).Some? then QueryGet(b, key) else QueryGet(a, key)
    decreases |b|
  {
    if b == [] {
      assert a + b == a;
    } else if b[|b| - 1].0 != key {
      var b' := b[..|b| - 1];
      assert (a + b)[..|a + b| - 1] == a + b';
      QueryGetAppend(a, b', key);
    }
  }

  /** The four query parameters the listing reads. */
  datatype TicketFilter = TicketFilter(
    category: Option<string>,
    priority: Option<string>,
    status: Option<string>,
    search: Option<string>)

  function FilterOf(params: FormUrlencoded.Pairs): TicketFilter {
    TicketFilter(
      QueryGet(params, "category"),
      QueryGet(params, "priority"),
      QueryGet(params, "status"),
      QueryGet(params, "search"))
  }

  /** A ticket passes every filter whose value is non-empty: the field filters by
      equality, the search by a case-insensitive match in the title or the
      description. */
  predicate Matches(t: Ticket, f: TicketFilter) {
    && (Truthy(f.category) ==> t.category == f.category.value)
    && (Truthy(f.priority) ==> t.priority == f.priority.value)
    && (Truthy(f.status) ==> t.status == f.status.value)
    && (Truthy(f.search) ==> IContains(t.title, f.search.value) || IContains(t.description, f.search.value))
  }

  function Keep(f: TicketFilter): Ticket -> bool {
    t => Matches(t, f)
  }

  /** `get_queryset`: the newest-first tickets narrowed by each non-empty filter in turn. */
  method GetQueryset(all: seq<Ticket>, params: FormUrlencoded.Pairs) returns (queryset: seq<Ticket>)
    ensures queryset == Filter(NewestFirst(all), Keep(FilterOf(params)))
  {
    var base := NewestFirst(all);
    var category := QueryGet(params, "category");
    var priority := QueryGet(params, "priority");
    var statusParam := QueryGet(params, "status");
    var search := QueryGet(params, "search");
    var f0 := TicketFilter(None, None, None, None);
    var f1 := f0.(category := category);
    var f2 := f1.(priority := priority);
    var f3 := f2.(status := statusParam);
    var f4 := f3.(search := search);
    assert f4 == FilterOf(params);

    queryset := base;
    FilterKeepsAll(base, Keep(f0));
    if Truthy(category) {
      FilterThenFilter(base, Keep(f0), (t: Ticket) => t.category == category.value, Keep(f1));
      queryset := Filter(queryset, (t: Ticket) => t.category == category.value);
    } else {
      FilterSame(base, Keep(f0), Keep(f1));
    }
    if Truthy(priority) {
      FilterThenFilter(base, Keep(f1), (t: Ticket) => t.priority == priority.value, Keep(f2));
      queryset := Filter(queryset, (t: Ticket) => t.priority == priority.value);
    } else {
      FilterSame(base, Keep(f1), Keep(f2));
    }
    if Truthy(statusParam) {
      FilterThenFilter(base, Keep(f2), (t: Ticket) => t.status == statusParam.value, Keep(f3));
      queryset := Filter(queryset, (t: Ticket) => t.status == statusParam.value);
    } else {
      FilterSame(base, Keep(f2), Keep(f3));
    }
    if Truthy(search) {
      FilterThenFilter(base, Keep(f3),
        (t: Ticket) => IContains(t.title, search.value) || IContains(t.description, search.value), Keep(f4));
      queryset := Filter(queryset,
        (t: Ticket) => IContains(t.title, search.value) || IContains(t.description, search.value));
    } else {
      FilterSame(base, Keep(f3), Keep(f4));
    }
  }

  /** Helper: filters by pointwise-equal predicates agree. */
  lemma {:induction false} FilterSame<T>(s: seq<T>, p: T -> bool, q: T -> bool)
    requires forall x :: p(x) == q(x)
    ensures Filter(s, p) == Filter(s, q)
  {
    if s != [] {
      FilterSame(s[1..], p, q);
    }
  }

  /** With no non-empty filter the listing is every ticket, newest first. */
  lemma NoFilterListsAll(all: seq<Ticket>, params: FormUrlencoded.Pairs)
    requires !Truthy(QueryGet(params, "category")) && !Truthy(QueryGet(params, "priority"))
    requires !Truthy(QueryGet(params, "status")) && !Truthy(QueryGet(params, "search"))
    ensures Filter(NewestFirst(all), Keep(FilterOf(params))) == NewestFirst(all)
  {
    FilterKeepsAll(NewestFirst(all), Keep(FilterOf(params)));
  }

  /** The listing holds exactly the tickets that pass every filter, newest first,
      in the order of the base query set, and so is never longer than the table. */
  lemma ListingCharacterized(all: seq<Ticket>, f: TicketFilter)
    ensures var r := Filter(NewestFirst(all), Keep(f));
      && (forall i :: 0 <= i < |r| ==> r[i] in all && Matches(r[i], f))
      && (forall i :: 0 <= i < |all| && Matches(all[i], f) ==> all[i] in r)
      && IsSubsequence(r, NewestFirst(all))
      && SortedDesc(r, CreatedAt)
      && |r| <= |all|
  {
    var base := NewestFirst(all);
    var r := Filter(base, Keep(f));
    forall i | 0 <= i < |r| ensures r[i] in all {
      assert r[i] in multiset(base);
    }
    forall i | 0 <= i < |all| && Matches(all[i], f) ensures all[i] in r {
      assert all[i] in multiset(base);
      assert Keep(f)(all[i]);
    }
    FilterIsSubsequence(base, Keep(f));
    SubsequenceKeepsSorted(r, base, CreatedAt);
    SubsequenceShorter(r, base);
    assert |base| == |all| by {
      assert |multiset(base)| == |multiset(all)|;
    }
  }

  // ------------------------------------------------------------ statistics

  /** The JSON object `stats` returns. */
  datatype StatsBody = StatsBody(
    totalTickets: nat,
    openTickets: nat,
    avgTicketsPerDay: real,
    priorityBreakdown: Dict,
    categoryBreakdown: Dict)

  function PriorityColumn(all: seq<Ticket>): (c: seq<string>)
    ensures |c| == |all| && forall i :: 0 <= i < |all| ==> c[i] == all[i].priority
  {
    seq(|all|, i requires 0 <= i < |all| => all[i].priority)
  }

  function CategoryColumn(all: seq<Ticket>): (c: seq<string>)
    ensures |c| == |all| && forall i :: 0 <= i < |all| ==> c[i] == all[i].category
  {
    seq(|all|, i requires 0 <= i < |all| => all[i].category)
  }

  function StatusColumn(all: seq<Ticket>): (c: seq<string>)
    ensures |c| == |all| && forall i :: 0 <= i < |all| ==> c[i] == all[i].status
  {
    seq(|all|, i requires 0 <= i < |all| => all[i].status)
  }

  function IsOpen(t: Ticket): bool { t.status == "open" }

  /** `filter(status='open').count()` is the number of rows whose status is `open`. */
  lemma {:induction false} OpenCount(all: seq<Ticket>)
    ensures |Filter(all, IsOpen)| == multiset(StatusColumn(all))["open"]
  {
    if all != [] {
      OpenCount(all[1..]);
      assert StatusColumn(all) == [all[0].status] + StatusColumn(all[1..]);
    }
  }

  /** `Min('created_at')`. */
  function FirstCreated(all: seq<Ticket>): (m: int)
    requires all != []
    ensures exists i :: 0 <= i < |all| && m == all[i].createdAt
    ensures forall i :: 0 <= i < |all| ==> m <= all[i].createdAt
  {
    if |all| == 1 then all[0].createdAt
    else
      var rest := FirstCreated(all[1..]);
      assert forall i :: 1 <= i < |all| ==> all[i] == all[1..][i - 1];
      if all[0].createdAt <= rest then all[0].createdAt else rest
  }

  /** `Max('created_at')`. */
  function LastCreated(all: seq<Ticket>): (m: int)
    requires all != []
    ensures exists i :: 0 <= i < |all| && m == all[i].createdAt
    ensures forall i :: 0 <= i < |all| ==> all[i].createdAt <= m
  {
    if |all| == 1 then all[0].createdAt
    else
      var rest := LastCreated(all[1..]);
      assert forall i :: 1 <= i < |all| ==> all[i] == all[1..][i - 1];
      if all[0].createdAt >= rest then all[0].createdAt else rest
  }

  /** The number of calendar days from the first ticket to the last, both included. */
  function DaySpan(all: seq<Ticket>): int
    requires all != []
  {
    DayOf(LastCreated(all)) - DayOf(FirstCreated(all)) + 1
  }

  lemma DaySpanPositive(all: seq<Ticket>)
    requires all != []
    ensures DaySpan(all) >= 1
  {
    DayOfMonotone(FirstCreated(all), all[0].createdAt);
    DayOfMonotone(all[0].createdAt, LastCreated(all));
  }

  /** `avg_tickets_per_day` before rounding: 0 for an empty table (both
      aggregates are `None`), otherwise the tickets per day of the span. */
  function AvgPerDay(all: seq<Ticket>): (avg: real)
    ensures all == [] ==> avg == 0.0
    ensures all != [] ==> avg * DaySpan(all) as real == |all| as real
  {
    if all == [] then 0.0
    else
      DaySpanPositive(all);
      var delta := DaySpan(all);
      if delta > 0 then |all| as real / delta as real else 0.0
  }

  /** The zero-filling `setdefault` loop over the four priorities. */
  method ZeroFill(d0: Dict) returns (d: Dict)
    requires DistinctKeys(d0)
    ensures DistinctKeys(d)
    ensures |d| >= |d0| && d[..|d0|] == d0
    ensures forall k :: k in Keys(d) <==> k in Keys(d0) || k in Priorities
    ensures forall k :: Get(d, k) == Get(d0, k)
    ensures Total(d) == Total(d0)
  {
    d := d0;
    for i := 0 to |Priorities|
      invariant DistinctKeys(d)
      invariant |d| >= |d0| && d[..|d0|] == d0
      invariant forall k :: k in Keys(d) <==> k in Keys(d0) || k in Priorities[..i]
      invariant forall k :: Get(d, k) == Get(d0, k)
      invariant Total(d) == Total(d0)
    {
      var p := Priorities[i];
      SetDefaultProperties(d, p, 0);
      d := SetDefault(d, p, 0);
      assert Priorities[..i + 1] == Priorities[..i] + [p];
    }
    assert Priorities[..|Priorities|] == Priorities;
  }

  /** `stats`: the counts, the average per day, the priority breakdown
      zero-filled to the four priorities and the category breakdown as grouped. */
  method Stats(all: seq<Ticket>) returns (st: StatsBody)
    ensures st.totalTickets == |all|
    ensures st.openTickets == multiset(StatusColumn(all))["open"] <= st.totalTickets
    ensures st.avgTicketsPerDay == AvgPerDay(all)
    ensures DistinctKeys(st.priorityBreakdown)
    ensures forall k :: k in Keys(st.priorityBreakdown) <==> k in PriorityColumn(all) || k in Priorities
    ensures forall k :: Get(st.priorityBreakdown, k) == multiset(PriorityColumn(all))[k]
    ensures Total(st.priorityBreakdown) == st.totalTickets
    ensures DistinctKeys(st.categoryBreakdown)
    ensures forall k :: k in Keys(st.categoryBreakdown) <==> k in CategoryColumn(all)
    ensures forall i :: 0 <= i < |st.categoryBreakdown| ==> st.categoryBreakdown[i].1 >= 1
    ensures forall k :: Get(st.categoryBreakdown, k) == multiset(CategoryColumn(all))[k]
  {
    var totalTickets := |all|;
    var openTickets := |Filter(all, IsOpen)|;
    OpenCount(all);
    var avgPerDay := AvgPerDay(all);
    var priorityData := Tally(PriorityColumn(all));
    var categoryData := Tally(CategoryColumn(all));
    priorityData := ZeroFill(priorityData);
    st := StatsBody(totalTickets, openTickets, avgPerDay, priorityData, categoryData);
  }

  // ---------------------------------------------------- the AI endpoints

  /** What the language-model call produced: its reply text, or an exception
      (from the client, the call, or reading the reply). */
  datatype LlmReply = Reply(text: string) | LlmError

  /** The two fields of a parsed classification that the front end reads;
      a field that is missing, or a parse result that is not an object, is `None`. */
  datatype Classification = Classification(suggestedCategory: Option<string>, suggestedPriority: Option<string>)

  datatype Body =
    | ErrorBody(error: string)
    | ClassifyBody(classification: Classification)
    | SolutionBody(solution: string)

  const DescriptionRequired: string := "Description is required"
  const FallbackClassification: Classification := Classification(Some("general"), Some("medium"))
  const SolutionUnavailable: string := "Unable to connect to the AI mainframe at this time."

  /** `response.text.strip().replace('```json', '').replace('```', '')`. */
  function Unfence(text: string): (r: string)
    ensures !Contains(r, Fence)
    ensures |r| <= |text|
  {
    NoFenceAfterRemoval(ReplaceAll(Strip(text), "```json", ""));
    ReplaceAll(ReplaceAll(Strip(text), "```json", ""), Fence, "")
  }

  /** The text handed to `json.loads`: the unfenced reply, cut down to the slice
      from its first `{` to its last `}` when it holds both. */
  function CleanJsonText(text: string): (r: string)
    ensures |r| <= |Unfence(text)|
  {
    BraceSlice(Unfence(text))
  }

  /** `clean_text[start:end + 1]` with `start = find('{')` and `end = rfind('}')`,
      when both are found; otherwise the text as it is. */
  function BraceSlice(clean: string): (r: string)
    ensures |r| <= |clean|
  {
    var start := Find(clean, '{');
    var end := RFind(clean, '}');
    if start != -1 && end != -1 then Slice(clean, start, end + 1) else clean
  }

  /** The cleanup's shape: the unfenced text is kept as it is unless it holds
      both braces; then the result is the stretch from the first `{` through the
      last `}` (empty when the last `}` comes first), so it starts with `{`, ends
      with `}` and leaves no `{` before it nor `}` after it. No fence survives. */
  lemma CleanJsonTextShape(text: string)
    ensures var clean := Unfence(text);
      var r := CleanJsonText(text);
      && (('{' !in clean || '}' !in clean) ==> r == clean)
      && ('{' in clean && '}' in clean && Find(clean, '{') > RFind(clean, '}') ==> r == "")
      && ('{' in clean && '}' in clean && Find(clean, '{') < RFind(clean, '}') ==>
            var i, j := Find(clean, '{'), RFind(clean, '}');
            && r == clean[i..j + 1]
            && r[0] == '{' && r[|r| - 1] == '}'
            && '{' !in clean[..i] && '}' !in clean[j + 1..])
      && !Contains(r, Fence)
  {
    BraceSliceShape(Unfence(text));
  }

  /** Helper: the shape of the brace slice of any text. */
  lemma BraceSliceShape(clean: string)
    ensures var r := BraceSlice(clean);
      && (('{' !in clean || '}' !in clean) ==> r == clean)
      && ('{' in clean && '}' in clean && Find(clean, '{') > RFind(clean, '}') ==> r == "")
      && ('{' in clean && '}' in clean && Find(clean, '{') < RFind(clean, '}') ==>
            var i, j := Find(clean, '{'), RFind(clean, '}');
            && r == clean[i..j + 1]
            && r[0] == '{' && r[|r| - 1] == '}'
            && '{' !in clean[..i] && '}' !in clean[j + 1..])
      && (!Contains(clean, Fence) ==> !Contains(r, Fence))
  {
    var i, j := Find(clean, '{'), RFind(clean, '}');
    var r := BraceSlice(clean);
    if i == -1 || j == -1 {
      assert r == clean;
    } else if j < i {
      assert r == [];
    } else {
      assert r == clean[i..j + 1];
      assert r[0] == clean[i] && r[|r| - 1] == clean[j];
      if !Contains(clean, Fence) {
        SliceNoFence(clean, i, j + 1);
      }
    }
  }

  /** `classify`: a 400 without a description; otherwise the parsed reply, or the
      fixed general/medium suggestion when the model or the parse fails.
      `parse` stands for `json.loads` (`None` when it raises). */
  function Classify(description: Option<string>, llm: LlmReply, parse: string -> Option<Classification>): (r: Response<Body>)
    ensures !Truthy(description) ==> r == Response(400, ErrorBody(DescriptionRequired))
    ensures Truthy(description) ==> r.status == 200 && r.body.ClassifyBody?
    ensures Truthy(description) && (llm.LlmError? || parse(CleanJsonText(llm.text)).None?) ==>
              r.body == ClassifyBody(FallbackClassification)
    ensures Truthy(description) && llm.Reply? && parse(CleanJsonText(llm.text)).Some? ==>
              r.body == ClassifyBody(parse(CleanJsonText(llm.text)).value)
  {
    if !Truthy(description) then Response(400, ErrorBody(DescriptionRequired))
    else match llm
      case LlmError => Response(200, ClassifyBody(FallbackClassification))
      case Reply(text) =>
        match parse(CleanJsonText(text))
        case None => Response(200, ClassifyBody(FallbackClassification))
        case Some(c) => Response(200, ClassifyBody(c))
  }

  /** Without a description `classify` answers 400 whatever the model would have said. */
  lemma ClassifyGuard(description: Option<string>, llm1: LlmReply, llm2: LlmReply,
                      parse1: string -> Option<Classification>, parse2: string -> Option<Classification>)
    requires !Truthy(description)
    ensures Classify(description, llm1, parse1) == Classify(description, llm2, parse2)
          == Response(400, ErrorBody(DescriptionRequired))
  {
  }

  /** `suggest_solution`: a 400 without a description, the stripped reply, or
      a 500 with the fixed apology when the model fails. */
  function SuggestSolution(description: Option<string>, llm: LlmReply): (r: Response<Body>)
    ensures !Truthy(description) ==> r == Response(400, ErrorBody(DescriptionRequired))
    ensures Truthy(description) && llm.LlmError? ==> r == Response(500, SolutionBody(SolutionUnavailable))
    ensures Truthy(description) && llm.Reply? ==>
              r.status == 200 && r.body.SolutionBody? && r.body.solution == Strip(llm.text)
  {
    if !Truthy(description) then Response(400, ErrorBody(DescriptionRequired))
    else match llm
      case LlmError => Response(500, SolutionBody(SolutionUnavailable))
      case Reply(text) => Response(200, SolutionBody(Strip(text)))
  }
}
