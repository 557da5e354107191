/** The ticket record as the back end stores it and the list view receives it,
    and the enumerated values the application uses for its fields. */
module Tickets {

  /** `created_at` is a timestamp, modelled as whole seconds since the epoch (UTC). */
  datatype Ticket = Ticket(
    id: int,
    title: string,
    description: string,
    category: string,
    priority: string,
    status: string,
    createdAt: int)

  const Categories: seq<string> := ["general", "technical", "billing", "account"]
  const Priorities: seq<string> := ["low", "medium", "high", "critical"]
  const Statuses: seq<string> := ["open", "in_progress", "resolved", "closed"]

  const SecondsPerDay: int := 86400

  /** Python's `datetime.date()` of a UTC timestamp: the day number, by floor
      division (Dafny's `/` is Euclidean, which is floor division for a positive divisor). */
  function DayOf(t: int): (d: int)
    ensures d * SecondsPerDay <= t < (d + 1) * SecondsPerDay
  {
    t / SecondsPerDay
  }

  lemma DayOfMonotone(s: int, t: int)
    requires s <= t
    ensures DayOf(s) <= DayOf(t)
  {
  }
}
