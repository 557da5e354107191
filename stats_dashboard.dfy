/** The statistics panel: it fetches the back end's statistics on mount and
    whenever the parent's refresh counter changes, and shows either a
    loading placeholder or four cards. */
module StatsDashboard {
  import opened Common
  import opened Dicts
  import opened Http

  /** The statistics object as the component reads it; `priority_breakdown` is
      read with optional chaining, so it may be missing. */
  datatype StatsResponse = StatsResponse(
    totalTickets: int,
    openTickets: int,
    avgTicketsPerDay: real,
    priorityBreakdown: Option<Dict>)

  datatype View =
    | Loading
    | Cards(total: int, open: int, avgPerDay: real, critical: nat)

  /** `priority_breakdown?.critical || 0`: a missing breakdown, a missing key and
      a zero count all show 0, any other count shows itself. (A parsed JSON
      object has distinct keys.) */
  function CriticalCount(pb: Option<Dict>): (n: nat)
    ensures pb.None? ==> n == 0
    ensures pb.Some? && "critical" !in Keys(pb.value) ==> n == 0
    ensures pb.Some? && DistinctKeys(pb.value) ==>
      forall i :: 0 <= i < |pb.value| && pb.value[i].0 == "critical" ==> n == pb.value[i].1
  {
    if pb.Some? then Get(pb.value, "critical") else 0
  }

  /** What the component renders: the placeholder while nothing has been
      fetched, otherwise the three fields unchanged and the critical count. */
  function Render(stats: Option<StatsResponse>): (v: View)
    ensures v.Loading? <==> stats.None?
    ensures stats.Some? ==>
      && v.total == stats.value.totalTickets
      && v.open == stats.value.openTickets
      && v.avgPerDay == stats.value.avgTicketsPerDay
      && v.critical == CriticalCount(stats.value.priorityBreakdown)
  {
    if stats.None? then Loading
    else
      var s := stats.value;
      Cards(s.totalTickets, s.openTickets, s.avgTicketsPerDay, CriticalCount(s.priorityBreakdown))
  }

  /** The critical card is positive exactly when the breakdown holds a positive
      `critical` entry. */
  lemma CriticalCardPositive(s: StatsResponse)
    ensures Render(Some(s)).critical > 0 <==>
      && s.priorityBreakdown.Some?
      && (exists i :: 0 <= i < |s.priorityBreakdown.value|
            && s.priorityBreakdown.value[i].0 == "critical" && s.priorityBreakdown.value[i].1 > 0
            && forall j :: 0 <= j < i ==> s.priorityBreakdown.value[j].0 != "critical")
  {
    if s.priorityBreakdown.Some? {
      var d := s.priorityBreakdown.value;
      if Get(d, "critical") > 0 {
        FirstKey(d, "critical");
      }
    }
  }

  /** Helper: a key with a non-zero count has a first entry, holding that count. */
  lemma {:induction false} FirstKey(d: Dict, k: string)
    requires Get(d, k) > 0
    ensures exists i :: 0 <= i < |d| && d[i].0 == k && d[i].1 == Get(d, k)
                        && forall j :: 0 <= j < i ==> d[j].0 != k
  {
    if d[0].0 != k {
      FirstKey(d[1..], k);
      var i :| 0 <= i < |d[1..]| && d[1..][i].0 == k && d[1..][i].1 == Get(d[1..], k)
               && forall j :: 0 <= j < i ==> d[1..][j].0 != k;
      assert d[i + 1] == d[1..][i];
      forall j | 0 <= j < i + 1 ensures d[j].0 != k {
        if j > 0 { assert d[j] == d[1..][j - 1]; }
      }
    }
  }

  class StatsDashboardComponent {
    var stats: Option<StatsResponse>
    /** The parent's refresh counter, the effect's one dependency. */
    var refreshTrigger: nat
    /** How many statistics requests the component has sent. */
    var requests: nat

    /** Mounting runs the effect once. */
    constructor (trigger: nat)
      ensures stats == None && Render(stats) == Loading
      ensures refreshTrigger == trigger && requests == 1
    {
      stats := None;
      refreshTrigger := trigger;
      requests := 1;
    }

    /** A new counter value from the parent sends one more request; the same
        value does not re-run the effect. */
    method SetRefreshTrigger(v: nat)
      modifies this
      ensures refreshTrigger == v && stats == old(stats)
      ensures requests == old(requests) + (if v != old(refreshTrigger) then 1 else 0)
    {
      if v != refreshTrigger {
        refreshTrigger := v;
        requests := requests + 1;
      }
    }

    /** A request completes: a resolved response replaces the snapshot; a
        rejection (logged) keeps the one shown, or the placeholder. */
    method FetchDone(response: Option<Response<StatsResponse>>)
      modifies this
      ensures var r := Resolve(response);
        stats == if r.Some? then r else old(stats)
      ensures refreshTrigger == old(refreshTrigger) && requests == old(requests)
    {
      var r := Resolve(response);
      if r.Some? {
        stats := r;
      }
    }
  }
}
