/** The two-step ticket draft: the user writes a title and a description
    (the edit step), asks the model to suggest a category and a priority, checks
    or changes them (the review step) and submits. Each awaited request is
    split into the part before the `await` and the part after it, so that the
    state the form shows while the request is in flight is visible; what the
    request returned is a parameter of the second part. */
module TicketForm {
  import opened Common
  import opened Tickets

  datatype Step = Edit | Review

  /** The component's state, and the parent's refresh counter that its
      ticket-created notification increments. */
  datatype Form = Form(
    title: string,
    description: string,
    category: string,
    priority: string,
    step: Step,
    isClassifying: bool,
    isSubmitting: bool,
    refresh: nat)

  const Initial: Form := Form("", "", "", "", Edit, false, false, 0)

  /** What the classify request gave back: the two suggested fields of a 2xx
      response (each possibly missing), or a rejection. */
  datatype ClassifyOutcome = ClassifyOk(suggestedCategory: Option<string>, suggestedPriority: Option<string>) | ClassifyFail

  /** The body of the ticket-creating request. */
  datatype Payload = Payload(title: string, description: string, category: string, priority: string)

  /** The options of the review step's two selects. */
  const CategoryOptions: seq<string> := Categories
  const PriorityOptions: seq<string> := Priorities

  /** The form's invariant: in the review step both choices are made. */
  predicate Valid(f: Form) {
    f.step == Review ==> f.category != "" && f.priority != ""
  }

  /** The "Analyze with AI" click up to the `await`: nothing happens while the
      button is disabled (a request is in flight) or while the title or the
      description is empty (an alert); otherwise the form is marked busy and
      the description is sent. The second component is the request body. */
  function BeginAnalysis(f: Form): (r: (Form, Option<string>))
    ensures r.1.Some? <==> !f.isClassifying && f.title != "" && f.description != ""
    ensures r.1.Some? ==> r.1.value == f.description && r.0 == f.(isClassifying := true)
    ensures r.1.None? ==> r.0 == f
    ensures Valid(f) ==> Valid(r.0)
  {
    if f.isClassifying || f.title == "" || f.description == "" then (f, None)
    else (f.(isClassifying := true), Some(f.description))
  }

  /** The rest of `startAnalysis`: the suggestions with `'general'` and `'medium'`
      in place of a missing or empty one, the same two on a failure, and in
      both cases the review step with the busy mark cleared. */
  function EndAnalysis(f: Form, outcome: ClassifyOutcome): (r: Form)
    ensures r.step == Review && !r.isClassifying
    ensures r.category == if outcome.ClassifyOk? then OrElse(outcome.suggestedCategory, "general") else "general"
    ensures r.priority == if outcome.ClassifyOk? then OrElse(outcome.suggestedPriority, "medium") else "medium"
    ensures r.title == f.title && r.description == f.description
    ensures r.isSubmitting == f.isSubmitting && r.refresh == f.refresh
    ensures Valid(r)
  {
    match outcome
    case ClassifyOk(cat, pri) =>
      f.(category := OrElse(cat, "general"), priority := OrElse(pri, "medium"), step := Review, isClassifying := false)
    case ClassifyFail =>
      f.(category := "general", priority := "medium", step := Review, isClassifying := false)
  }

  /** The close and Back buttons of the review step: back to editing, the draft kept. */
  function Back(f: Form): (r: Form)
    ensures r.step == Edit
    ensures r.title == f.title && r.description == f.description
    ensures r.category == f.category && r.priority == f.priority
    ensures r.isClassifying == f.isClassifying && r.isSubmitting == f.isSubmitting && r.refresh == f.refresh
    ensures Valid(r)
  {
    f.(step := Edit)
  }

  /** The category select; it offers only the four categories. */
  function SelectCategory(f: Form, v: string): (r: Form)
    requires v in CategoryOptions
    ensures r.category == v && r.category != ""
    ensures r == f.(category := r.category)
    ensures Valid(f) ==> Valid(r)
  {
    f.(category := v)
  }

  /** The priority select; it offers only the four priorities. */
  function SelectPriority(f: Form, v: string): (r: Form)
    requires v in PriorityOptions
    ensures r.priority == v && r.priority != ""
    ensures r == f.(priority := r.priority)
    ensures Valid(f) ==> Valid(r)
  {
    f.(priority := v)
  }

  /** The "Confirm & Submit" click up to the `await`: nothing while the button
      is disabled, otherwise the form is marked busy and the four draft
      fields are sent. The second component is the request body. */
  function BeginSubmit(f: Form): (r: (Form, Option<Payload>))
    ensures r.1.Some? <==> !f.isSubmitting
    ensures r.1.Some? ==> r.1.value == Payload(f.title, f.description, f.category, f.priority)
                          && r.0 == f.(isSubmitting := true)
    ensures r.1.None? ==> r.0 == f
    ensures Valid(f) ==> Valid(r.0)
  {
    if f.isSubmitting then (f, None)
    else (f.(isSubmitting := true), Some(Payload(f.title, f.description, f.category, f.priority)))
  }

  /** The rest of `finalSubmit`: on success the draft is cleared, the form goes
      back to editing and the parent is notified once; on failure only the busy
      mark is cleared (after an alert). */
  function EndSubmit(f: Form, ok: bool): (r: Form)
    ensures !r.isSubmitting && r.isClassifying == f.isClassifying
    ensures ok ==> r.title == "" && r.description == "" && r.category == "" && r.priority == ""
                   && r.step == Edit && r.refresh == f.refresh + 1
    ensures !ok ==> r.title == f.title && r.description == f.description
                    && r.category == f.category && r.priority == f.priority
                    && r.step == f.step && r.refresh == f.refresh
    ensures Valid(f) ==> Valid(r)
  {
    if ok then
      f.(title := "", description := "", category := "", priority := "", step := Edit,
         isSubmitting := false, refresh := f.refresh + 1)
    else
      f.(isSubmitting := false)
  }

  /** The inputs of the edit step. */
  function SetTitle(f: Form, v: string): (r: Form)
    ensures r.title == v && r == f.(title := v)
    ensures Valid(f) ==> Valid(r)
  {
    f.(title := v)
  }

  function SetDescription(f: Form, v: string): (r: Form)
    ensures r.description == v && r == f.(description := v)
    ensures Valid(f) ==> Valid(r)
  {
    f.(description := v)
  }

  /** What the user and the two requests can do to the form. A control acts
      only in the step that renders it. */
  datatype Event =
    | TypeTitle(title: string)
    | TypeDescription(description: string)
    | ClickAnalyze
    | AnalysisDone(outcome: ClassifyOutcome)
    | ClickBack
    | ChooseCategory(category: string)
    | ChoosePriority(priority: string)
    | ClickSubmit
    | SubmitDone(ok: bool)

  /** Events the page can produce: a select yields one of its options. */
  predicate Possible(e: Event) {
    && (e.ChooseCategory? ==> e.category in CategoryOptions)
    && (e.ChoosePriority? ==> e.priority in PriorityOptions)
  }

  function Apply(f: Form, e: Event): Form
    requires Possible(e)
  {
    match e
    case TypeTitle(v) => if f.step == Edit then SetTitle(f, v) else f
    case TypeDescription(v) => if f.step == Edit then SetDescription(f, v) else f
    case ClickAnalyze => if f.step == Edit then BeginAnalysis(f).0 else f
    case AnalysisDone(o) => EndAnalysis(f, o)
    case ClickBack => if f.step == Review then Back(f) else f
    case ChooseCategory(v) => if f.step == Review then SelectCategory(f, v) else f
    case ChoosePriority(v) => if f.step == Review then SelectPriority(f, v) else f
    case ClickSubmit => if f.step == Review then BeginSubmit(f).0 else f
    case SubmitDone(ok) => EndSubmit(f, ok)
  }

  function Run(f: Form, es: seq<Event>): Form
    requires forall i :: 0 <= i < |es| ==> Possible(es[i])
    decreases |es|
  {
    if es == [] then f else Run(Apply(f, es[0]), es[1..])
  }

  /** Whatever the user does, in whatever order the requests come back, the
      review step never shows an empty category or priority. */
  lemma {:induction false} RunKeepsValid(f: Form, es: seq<Event>)
    requires Valid(f)
    requires forall i :: 0 <= i < |es| ==> Possible(es[i])
    ensures Valid(Run(f, es))
    decreases |es|
  {
    if es != [] {
      var g := Apply(f, es[0]);
      assert Valid(g);
      RunKeepsValid(g, es[1..]);
    }
  }

  /** Every notification the parent receives comes from a successful submit:
      the refresh counter rises by exactly the number of successful submits. */
  function Successes(es: seq<Event>): nat {
    if es == [] then 0 else (if es[0] == SubmitDone(true) then 1 else 0) + Successes(es[1..])
  }

  lemma {:induction false} RefreshCountsSuccesses(f: Form, es: seq<Event>)
    requires forall i :: 0 <= i < |es| ==> Possible(es[i])
    ensures Run(f, es).refresh == f.refresh + Successes(es)
    decreases |es|
  {
    if es != [] {
      RefreshCountsSuccesses(Apply(f, es[0]), es[1..]);
    }
  }

  /** The component itself: its state hooks as fields, its handlers as methods
      that set them in the order the handlers do. */
  class TicketFormComponent {
    var title: string
    var description: string
    var category: string
    var priority: string
    var step: Step
    var isClassifying: bool
    var isSubmitting: bool
    /** The parent's `refresh` state, raised by `onTicketCreated`. */
    var refresh: nat

    function State(): Form
      reads this
    {
      Form(title, description, category, priority, step, isClassifying, isSubmitting, refresh)
    }

    constructor ()
      ensures State() == Initial && Valid(State())
    {
      title, description, category, priority := "", "", "", "";
      step := Edit;
      isClassifying, isSubmitting := false, false;
      refresh := 0;
    }

    method OnTitleChange(v: string)
      modifies this
      ensures State() == SetTitle(old(State()), v)
    {
      title := v;
    }

    method OnDescriptionChange(v: string)
      modifies this
      ensures State() == SetDescription(old(State()), v)
    {
      description := v;
    }

    /** `startAnalysis` up to the `await`; `request` is the description sent, if any. */
    method StartAnalysis() returns (request: Option<string>)
      modifies this
      ensures (State(), request) == BeginAnalysis(old(State()))
      ensures old(Valid(State())) ==> Valid(State())
    {
      if isClassifying || title == "" || description == "" {
        return None;
      }
      isClassifying := true;
      request := Some(description);
    }

    /** `startAnalysis` after the `await` and its `finally`. */
    method FinishAnalysis(outcome: ClassifyOutcome)
      modifies this
      ensures State() == EndAnalysis(old(State()), outcome)
      ensures Valid(State())
    {
      match outcome {
        case ClassifyOk(cat, pri) =>
          category := OrElse(cat, "general");
          priority := OrElse(pri, "medium");
          step := Review;
        case ClassifyFail =>
          category := "general";
          priority := "medium";
          step := Review;
      }
      isClassifying := false;
    }

    method OnBack()
      modifies this
      ensures State() == Back(old(State()))
    {
      step := Edit;
    }

    method OnCategoryChange(v: string)
      requires v in CategoryOptions
      modifies this
      ensures State() == SelectCategory(old(State()), v)
    {
      category := v;
    }

    method OnPriorityChange(v: string)
      requires v in PriorityOptions
      modifies this
      ensures State() == SelectPriority(old(State()), v)
    {
      priority := v;
    }

    /** `finalSubmit` up to the `await`; `payload` is the body sent, if any. */
    method StartSubmit() returns (payload: Option<Payload>)
      modifies this
      ensures (State(), payload) == BeginSubmit(old(State()))
    {
      if isSubmitting {
        return None;
      }
      isSubmitting := true;
      payload := Some(Payload(title, description, category, priority));
    }

    /** `finalSubmit` after the `await` and its `finally`. */
    method FinishSubmit(ok: bool)
      modifies this
      ensures State() == EndSubmit(old(State()), ok)
      ensures old(Valid(State())) ==> Valid(State())
    {
      if ok {
        title := "";
        description := "";
        category := "";
        priority := "";
        step := Edit;
        refresh := refresh + 1;
      }
      isSubmitting := false;
    }
  }
}
