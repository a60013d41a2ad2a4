/**
 * The ticket list screen: description truncation, the status flow behind
 * the "Mark as ..." button, the query parameters sent for the current
 * filters, and the in-place replacement of a ticket after a status change.
 * Requests to the backend are function parameters standing for the API
 * calls; their answer is `None` when the call fails.
 */
module TicketList {
  import opened Wrappers
  import opened Models
  import opened Serializers

  // ---------------------------------------------------------------------
  // truncate
  // ---------------------------------------------------------------------

  const DefaultTruncateLength: nat := 120
  const Ellipsis: string := "..."

  /** `truncate(str, n)`: texts longer than `n` keep their first `n` characters and gain "...". */
  function Truncate(s: string, n: nat): (r: string)
    ensures |s| <= n ==> r == s
    ensures |s| > n ==> |r| == n + |Ellipsis| && r[..n] == s[..n] && r[n..] == Ellipsis
  {
    if |s| > n then s[..n] + Ellipsis else s
  }

  /** `truncate(str)` with the default length. */
  function TruncateDefault(s: string): (r: string)
    ensures |s| <= 120 ==> r == s
    ensures |s| > 120 ==> |r| == 123 && r[..120] == s[..120] && r[120..] == Ellipsis
  {
    Truncate(s, DefaultTruncateLength)
  }

  /** Truncation keeps a prefix and never produces more than `n + 3` characters. */
  lemma TruncateBounds(s: string, n: nat)
    ensures |Truncate(s, n)| <= n + 3
    ensures |Truncate(s, n)| <= |s| || |s| > n
    ensures var k := if |s| <= n then |s| else n; Truncate(s, n)[..k] == s[..k]
  {
  }

  /** Truncating a truncated text changes nothing. */
  lemma TruncateIdempotent(s: string, n: nat)
    ensures Truncate(Truncate(s, n), n) == Truncate(s, n)
  {
  }

  // ---------------------------------------------------------------------
  // nextStatus / STATUS_FLOW
  // ---------------------------------------------------------------------

  const StatusFlow: seq<string> := ["open", "in_progress", "resolved", "closed"]

  /** `Array.prototype.indexOf`: the first index holding `x`, or -1. */
  function IndexOf(xs: seq<string>, x: string): (r: int)
    ensures -1 <= r < |xs|
    ensures r == -1 <==> x !in xs
    ensures r >= 0 ==> xs[r] == x && forall k :: 0 <= k < r ==> xs[k] != x
  {
    if xs == [] then -1
    else if xs[0] == x then 0
    else
      var k := IndexOf(xs[1..], x);
      if k == -1 then -1 else k + 1
  }

  /**
   * `nextStatus(current)`: the entry after `current` in the flow, `None`
   * (JavaScript null) after the last one.  A status not in the flow has
   * index -1, so it is followed by the first entry, "open".
   */
  function NextStatus(current: string): (r: Option<string>)
    ensures r.None? <==> current == "closed"
    ensures current !in StatusFlow ==> r == Some("open")
    ensures r.Some? ==> r.value in StatusFlow
    ensures r.Some? && current in StatusFlow ==> IndexOf(StatusFlow, r.value) == IndexOf(StatusFlow, current) + 1
  {
    var idx := IndexOf(StatusFlow, current);
    if idx < |StatusFlow| - 1 then Some(StatusFlow[idx + 1]) else None
  }

  /** The flow is the model's status choice list, in the same order. */
  lemma StatusFlowIsStatusChoices()
    ensures StatusFlow == ChoiceValues(StatusChoices)
  {
  }

  /** The four cases of the flow, and the fallback for an unknown status. */
  lemma NextStatusTable(s: string)
    ensures NextStatus("open") == Some("in_progress")
    ensures NextStatus("in_progress") == Some("resolved")
    ensures NextStatus("resolved") == Some("closed")
    ensures NextStatus("closed") == None
    ensures s !in StatusFlow ==> NextStatus(s) == Some("open")
  {
  }

  /** Whatever the current status, the advance button asks only for a status the backend accepts. */
  lemma NextStatusIsValidChoice(current: string)
    requires NextStatus(current).Some?
    ensures ValidateField("status", JString(NextStatus(current).value)) == Success(NextStatus(current).value)
  {
    StatusFlowIsStatusChoices();
  }

  /** Repeated advancing from any status reaches null within five applications of `nextStatus`. */
  lemma AdvancingTerminates(s: string)
    ensures var s1 := NextStatus(s);
      s1.None? || NextStatus(s1.value).None? || NextStatus(NextStatus(s1.value).value).None?
      || NextStatus(NextStatus(NextStatus(s1.value).value).value).None?
      || NextStatus(NextStatus(NextStatus(NextStatus(s1.value).value).value).value).None?
  {
  }

  /** `{nextStatus(ticket.status) && ...}`: the button renders when the next status is a non-empty string. */
  predicate ShowsAdvanceButton(status: string) {
    NextStatus(status).Some? && NextStatus(status).value != ""
  }

  /** The advance button appears for every status except "closed". */
  lemma AdvanceButtonUnlessClosed(status: string)
    ensures ShowsAdvanceButton(status) <==> status != "closed"
  {
  }

  // ---------------------------------------------------------------------
  // Query parameters of loadTickets
  // ---------------------------------------------------------------------

  const FilterKeys: set<string> := {"category", "priority", "status", "search"}

  /** JavaScript truthiness of a looked-up filter: present and non-empty. */
  predicate FilterSet(filters: map<string, string>, key: string) {
    key in filters && filters[key] != ""
  }

  /**
   * The `params` object of `loadTickets`, built one `if` at a time: it
   * carries a filter exactly when that filter is set, with its value as is.
   */
  method BuildParams(filters: map<string, string>) returns (params: map<string, string>)
    ensures params.Keys <= FilterKeys
    ensures forall k :: k in FilterKeys ==> (k in params <==> FilterSet(filters, k))
    ensures forall k :: k in params ==> k in filters && params[k] == filters[k]
  {
    params := map[];
    if FilterSet(filters, "category") { params := params["category" := filters["category"]]; }
    if FilterSet(filters, "priority") { params := params["priority" := filters["priority"]]; }
    if FilterSet(filters, "status") { params := params["status" := filters["status"]]; }
    if FilterSet(filters, "search") { params := params["search" := filters["search"]]; }
  }

  // ---------------------------------------------------------------------
  // The list update of handleStatusChange
  // ---------------------------------------------------------------------

  /** `ts.map(t => t.id === updated.id ? updated : t)`. */
  function ReplaceById(ts: seq<Ticket>, updated: Ticket): (r: seq<Ticket>)
    ensures |r| == |ts|
    ensures forall i :: 0 <= i < |ts| ==> r[i] == (if ts[i].id == updated.id then updated else ts[i])
  {
    if ts == [] then [] else [if ts[0].id == updated.id then updated else ts[0]] + ReplaceById(ts[1..], updated)
  }

  /** With unique ids, the replacement touches exactly the one entry with the updated id. */
  lemma ReplaceByIdAt(ts: seq<Ticket>, updated: Ticket, k: nat)
    requires UniqueIds(ts)
    requires k < |ts| && ts[k].id == updated.id
    ensures ReplaceById(ts, updated) == ts[k := updated]
    ensures UniqueIds(ReplaceById(ts, updated))
  {
  }

  /** When no entry has the updated id the list stays as it is. */
  lemma ReplaceByIdAbsent(ts: seq<Ticket>, updated: Ticket)
    requires forall i :: 0 <= i < |ts| ==> ts[i].id != updated.id
    ensures ReplaceById(ts, updated) == ts
  {
  }

  // ---------------------------------------------------------------------
  // Screen state
  // ---------------------------------------------------------------------

  class TicketListState {
    var tickets: seq<Ticket>
    var loading: bool
    var filters: map<string, string>
    var searchInput: string

    constructor ()
      ensures tickets == [] && loading && searchInput == ""
      ensures filters == map["category" := "", "priority" := "", "status" := "", "search" := ""]
    {
      tickets := [];
      loading := true;
      filters := map["category" := "", "priority" := "", "status" := "", "search" := ""];
      searchInput := "";
    }

    /** `loadTickets`: fetch with the current filters; keep the old list when the fetch fails. */
    method LoadTickets(fetch: map<string, string> -> Option<seq<Ticket>>) returns (params: map<string, string>)
      modifies this`tickets, this`loading
      ensures forall k :: k in FilterKeys ==> (k in params <==> FilterSet(filters, k))
      ensures forall k :: k in params ==> k in filters && params[k] == filters[k]
      ensures params.Keys <= FilterKeys
      ensures tickets == (if fetch(params).Some? then fetch(params).value else old(tickets))
      ensures !loading
    {
      loading := true;
      params := BuildParams(filters);
      var data := fetch(params);
      if data.Some? {
        tickets := data.value;
      }
      loading := false;
    }

    /** `handleFilterChange(key, value)`. */
    method HandleFilterChange(key: string, value: string)
      modifies this`filters
      ensures filters == old(filters)[key := value]
    {
      filters := filters[key := value];
    }

    /** `handleSearchChange`, with the debounced filter update taken as having fired. */
    method HandleSearchChange(value: string)
      modifies this`searchInput, this`filters
      ensures searchInput == value
      ensures filters == old(filters)["search" := value]
    {
      searchInput := value;
      filters := filters["search" := value];
    }

    /**
     * `handleStatusChange(ticket, newStatus)`: PATCH `{status: newStatus}`
     * for the ticket's id; on success the returned ticket replaces the entry
     * with its id, on failure the list is left alone.
     */
    method HandleStatusChange(ticket: Ticket, newStatus: string, update: (nat, Data) -> Option<Ticket>)
      modifies this`tickets
      ensures var answer := update(ticket.id, map["status" := JString(newStatus)]);
        tickets == (if answer.Some? then ReplaceById(old(tickets), answer.value) else old(tickets))
    {
      var answer := update(ticket.id, map["status" := JString(newStatus)]);
      if answer.Some? {
        tickets := ReplaceById(tickets, answer.value);
      }
    }
  }
}
