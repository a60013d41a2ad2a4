/**
 * The `Ticket` model: its three closed enumerations with their choice
 * lists and defaults, the field length limits, the storage-level check
 * constraints, the default ordering and the string form of a ticket.
 */
module Models {
  import opened Wrappers

  // ---------------------------------------------------------------------
  // Enumerations.  A stored value is the first element of a choice pair.
  // ---------------------------------------------------------------------

  datatype Category = Billing | Technical | Account | General {
    function Value(): string {
      match this
      case Billing => "billing"
      case Technical => "technical"
      case Account => "account"
      case General => "general"
    }
  }

  datatype Priority = Low | Medium | High | Critical {
    function Value(): string {
      match this
      case Low => "low"
      case Medium => "medium"
      case High => "high"
      case Critical => "critical"
    }
  }

  datatype Status = Open | InProgress | Resolved | Closed {
    function Value(): string {
      match this
      case Open => "open"
      case InProgress => "in_progress"
      case Resolved => "resolved"
      case Closed => "closed"
    }
  }

  /** A choices list: (stored value, human-readable label) pairs. */
  type Choices = seq<(string, string)>

  const CategoryChoices: Choices :=
    [("billing", "Billing"), ("technical", "Technical"), ("account", "Account"), ("general", "General")]

  const PriorityChoices: Choices :=
    [("low", "Low"), ("medium", "Medium"), ("high", "High"), ("critical", "Critical")]

  const StatusChoices: Choices :=
    [("open", "Open"), ("in_progress", "In Progress"), ("resolved", "Resolved"), ("closed", "Closed")]

  /** The stored values of a choices list, in order. */
  function ChoiceValues(choices: Choices): (r: seq<string>)
    ensures |r| == |choices|
    ensures forall i :: 0 <= i < |r| ==> r[i] == choices[i].0
  {
    seq(|choices|, i requires 0 <= i < |choices| => choices[i].0)
  }

  /** The stored values of the three choices lists, written out. */
  lemma ChoiceValuesListed()
    ensures ChoiceValues(CategoryChoices) == ["billing", "technical", "account", "general"]
    ensures ChoiceValues(PriorityChoices) == ["low", "medium", "high", "critical"]
    ensures ChoiceValues(StatusChoices) == ["open", "in_progress", "resolved", "closed"]
  {
  }

  const DefaultCategory: Category := General
  const DefaultPriority: Priority := Medium
  const DefaultStatus: Status := Open

  function ParseCategory(s: string): (r: Option<Category>)
    ensures r.Some? <==> s in ChoiceValues(CategoryChoices)
    ensures r.Some? ==> r.value.Value() == s
  {
    ChoiceValuesListed();
    if s == "billing" then Some(Billing)
    else if s == "technical" then Some(Technical)
    else if s == "account" then Some(Account)
    else if s == "general" then Some(General)
    else None
  }

  function ParsePriority(s: string): (r: Option<Priority>)
    ensures r.Some? <==> s in ChoiceValues(PriorityChoices)
    ensures r.Some? ==> r.value.Value() == s
  {
    ChoiceValuesListed();
    if s == "low" then Some(Low)
    else if s == "medium" then Some(Medium)
    else if s == "high" then Some(High)
    else if s == "critical" then Some(Critical)
    else None
  }

  function ParseStatus(s: string): (r: Option<Status>)
    ensures r.Some? <==> s in ChoiceValues(StatusChoices)
    ensures r.Some? ==> r.value.Value() == s
  {
    ChoiceValuesListed();
    if s == "open" then Some(Open)
    else if s == "in_progress" then Some(InProgress)
    else if s == "resolved" then Some(Resolved)
    else if s == "closed" then Some(Closed)
    else None
  }

  /** Every enumeration value is in its choices list and parses back to itself. */
  lemma {:induction false} EnumerationsRoundTrip(c: Category, p: Priority, s: Status)
    ensures c.Value() in ChoiceValues(CategoryChoices) && ParseCategory(c.Value()) == Some(c)
    ensures p.Value() in ChoiceValues(PriorityChoices) && ParsePriority(p.Value()) == Some(p)
    ensures s.Value() in ChoiceValues(StatusChoices) && ParseStatus(s.Value()) == Some(s)
  {
    ChoiceValuesListed();
  }

  /** The defaults are general / medium / open, each a member of its choices list. */
  lemma DefaultsAreChoices()
    ensures DefaultCategory.Value() == "general" && DefaultCategory.Value() in ChoiceValues(CategoryChoices)
    ensures DefaultPriority.Value() == "medium" && DefaultPriority.Value() in ChoiceValues(PriorityChoices)
    ensures DefaultStatus.Value() == "open" && DefaultStatus.Value() in ChoiceValues(StatusChoices)
  {
    ChoiceValuesListed();
  }

  // ---------------------------------------------------------------------
  // Field limits.
  // ---------------------------------------------------------------------

  const TitleMaxLength: nat := 200
  const ChoiceFieldMaxLength: nat := 20

  /** Every choice value of the three enumerations fits the 20-character columns. */
  lemma ChoiceValuesFitColumns()
    ensures forall v :: v in ChoiceValues(CategoryChoices) ==> |v| <= ChoiceFieldMaxLength
    ensures forall v :: v in ChoiceValues(PriorityChoices) ==> |v| <= ChoiceFieldMaxLength
    ensures forall v :: v in ChoiceValues(StatusChoices) ==> |v| <= ChoiceFieldMaxLength
  {
  }

  // ---------------------------------------------------------------------
  // The stored record.
  // ---------------------------------------------------------------------

  /**
   * One row of the ticket table.  `createdAt` is the clock reading taken
   * once at insertion; `id` is the store-assigned primary key.
   */
  datatype Ticket = Ticket(
    id: nat,
    title: string,
    description: string,
    category: string,
    priority: string,
    status: string,
    createdAt: int)

  /** `__str__`: a ticket prints as its title. */
  function TicketStr(t: Ticket): string {
    t.title
  }

  // ---------------------------------------------------------------------
  // Storage-level check constraints, written as their own literal lists.
  // ---------------------------------------------------------------------

  const ValidCategoryValues: seq<string> := ["billing", "technical", "account", "general"]
  const ValidPriorityValues: seq<string> := ["low", "medium", "high", "critical"]
  const ValidStatusValues: seq<string> := ["open", "in_progress", "resolved", "closed"]

  /** `valid_category`, `valid_priority`, `valid_status`. */
  predicate CheckConstraints(t: Ticket) {
    t.category in ValidCategoryValues
    && t.priority in ValidPriorityValues
    && t.status in ValidStatusValues
  }

  /** What the table's column definitions and check constraints admit. */
  predicate StorableTicket(t: Ticket) {
    |t.title| <= TitleMaxLength
    && |t.category| <= ChoiceFieldMaxLength
    && |t.priority| <= ChoiceFieldMaxLength
    && |t.status| <= ChoiceFieldMaxLength
    && CheckConstraints(t)
  }

  /** Each check constraint admits exactly the values of the matching choices list. */
  lemma ConstraintsMatchChoices(v: string)
    ensures v in ValidCategoryValues <==> v in ChoiceValues(CategoryChoices)
    ensures v in ValidPriorityValues <==> v in ChoiceValues(PriorityChoices)
    ensures v in ValidStatusValues <==> v in ChoiceValues(StatusChoices)
  {
    ChoiceValuesListed();
  }

  /** A ticket meets the check constraints exactly when its three fields parse as enumeration values. */
  lemma ConstraintsIffEnumerations(t: Ticket)
    ensures CheckConstraints(t) <==>
      ParseCategory(t.category).Some? && ParsePriority(t.priority).Some? && ParseStatus(t.status).Some?
  {
  }

  /** A ticket that meets the check constraints also fits the 20-character columns. */
  lemma ConstraintsImplyColumnFit(t: Ticket)
    requires CheckConstraints(t)
    ensures |t.category| <= ChoiceFieldMaxLength
    ensures |t.priority| <= ChoiceFieldMaxLength
    ensures |t.status| <= ChoiceFieldMaxLength
  {
  }

  // ---------------------------------------------------------------------
  // Ordering.
  // ---------------------------------------------------------------------

  predicate UniqueIds(ts: seq<Ticket>) {
    forall i, j :: 0 <= i < |ts| && 0 <= j < |ts| && ts[i].id == ts[j].id ==> i == j
  }

  /** `ordering = ['-created_at']`: newest first. */
  predicate NewestFirst(ts: seq<Ticket>) {
    forall i, j :: 0 <= i < j < |ts| ==> ts[i].createdAt >= ts[j].createdAt
  }

  /** Putting a ticket no older than the head in front keeps a sequence newest first. */
  lemma ConsNewestFirst(t: Ticket, ts: seq<Ticket>)
    requires NewestFirst(ts)
    requires ts != [] ==> t.createdAt >= ts[0].createdAt
    ensures NewestFirst([t] + ts)
  {
  }

  /** The tail of a newest-first sequence is newest first. */
  lemma TailNewestFirst(ts: seq<Ticket>)
    requires ts != [] && NewestFirst(ts)
    ensures NewestFirst(ts[1..])
  {
  }

  /** `t` placed into an already newest-first sequence. */
  function InsertByCreatedDesc(t: Ticket, ts: seq<Ticket>): (r: seq<Ticket>)
    requires NewestFirst(ts)
    ensures NewestFirst(r)
    ensures multiset(r) == multiset(ts) + multiset{t}
    ensures |r| == |ts| + 1 && (r[0] == t || (ts != [] && r[0] == ts[0]))
  {
    if ts == [] then [t]
    else if t.createdAt >= ts[0].createdAt then
      ConsNewestFirst(t, ts);
      [t] + ts
    else
      TailNewestFirst(ts);
      var rest := InsertByCreatedDesc(t, ts[1..]);
      InsertStep(t, ts, rest);
      [ts[0]] + rest
  }

  /** The recursive case of the insertion: the head stays in front of the tail with `t` inserted. */
  lemma InsertStep(t: Ticket, ts: seq<Ticket>, rest: seq<Ticket>)
    requires ts != [] && NewestFirst(ts) && t.createdAt < ts[0].createdAt
    requires NewestFirst(rest) && multiset(rest) == multiset(ts[1..]) + multiset{t}
    requires |rest| == |ts| && (rest[0] == t || (|ts| > 1 && rest[0] == ts[1]))
    ensures NewestFirst([ts[0]] + rest)
    ensures multiset([ts[0]] + rest) == multiset(ts) + multiset{t}
  {
    ConsNewestFirst(ts[0], rest);
    assert ts == [ts[0]] + ts[1..];
  }

  /** `order_by('-created_at')`: the same tickets, newest first. */
  function OrderByCreatedDesc(ts: seq<Ticket>): (r: seq<Ticket>)
    ensures NewestFirst(r)
    ensures multiset(r) == multiset(ts)
  {
    if ts == [] then []
    else
      assert ts == [ts[0]] + ts[1..];
      InsertByCreatedDesc(ts[0], OrderByCreatedDesc(ts[1..]))
  }

  /** Sorting neither adds nor drops tickets: same length, same members. */
  lemma OrderByCreatedDescSameTickets(ts: seq<Ticket>)
    ensures |OrderByCreatedDesc(ts)| == |ts|
    ensures forall t :: t in OrderByCreatedDesc(ts) <==> t in ts
  {
    var r := OrderByCreatedDesc(ts);
    assert |multiset(r)| == |multiset(ts)|;
    forall t ensures t in r <==> t in ts {
      assert t in r <==> t in multiset(r);
      assert t in ts <==> t in multiset(ts);
    }
  }

  /** A sequence already newest first with distinct creation times is left as it is. */
  lemma {:induction false} OrderByCreatedDescKeepsSorted(ts: seq<Ticket>)
    requires NewestFirst(ts)
    requires forall i, j :: 0 <= i < j < |ts| ==> ts[i].createdAt != ts[j].createdAt
    ensures OrderByCreatedDesc(ts) == ts
  {
    if ts != [] {
      OrderByCreatedDescKeepsSorted(ts[1..]);
      assert ts == [ts[0]] + ts[1..];
    }
  }
}
