/**
 * The two ticket endpoints over one table of tickets:
 * `ticket_list_create` (GET lists every ticket newest first, POST creates
 * one) and `ticket_detail` (GET returns one ticket, PATCH partially
 * updates it, an unknown id is "Not found").  The table is a sequence of
 * rows in insertion order; the clock reading of a create is a parameter.
 */
module Views {
  import opened Wrappers
  import opened Models
  import opened Serializers

  const HTTP_200_OK: nat := 200
  const HTTP_201_CREATED: nat := 201
  const HTTP_400_BAD_REQUEST: nat := 400
  const HTTP_404_NOT_FOUND: nat := 404

  /** A response body: serialized ticket(s), a field error map, or a plain message object. */
  datatype Body =
    | TicketBody(ticket: Ticket)
    | TicketsBody(tickets: seq<Ticket>)
    | ErrorsBody(errors: Errors)
    | MessageBody(message: map<string, string>)

  datatype Response = Response(status: nat, body: Body)

  const NotFound: Response := Response(HTTP_404_NOT_FOUND, MessageBody(map["error" := "Not found"]))

  /** `Ticket.objects.get(pk=pk)`: the position of the row with that primary key, if any. */
  function FindById(ts: seq<Ticket>, id: nat): (r: Option<nat>)
    ensures r.Some? ==> r.value < |ts| && ts[r.value].id == id
    ensures r.None? <==> forall i :: 0 <= i < |ts| ==> ts[i].id != id
  {
    if ts == [] then None
    else if ts[0].id == id then Some(0)
    else match FindById(ts[1..], id)
      case None => None
      case Some(k) => Some(k + 1)
  }

  /** With unique ids the row found is the only one carrying the id. */
  lemma FindByIdUnique(ts: seq<Ticket>, id: nat, i: nat)
    requires UniqueIds(ts)
    requires i < |ts| && ts[i].id == id
    ensures FindById(ts, id) == Some(i)
  {
  }

  /**
   * Every row meets the table's constraints and the serializer's rules,
   * and primary keys are unique and below the next one to be assigned.
   */
  predicate ValidTable(ts: seq<Ticket>, nextId: nat) {
    && UniqueIds(ts)
    && (forall i :: 0 <= i < |ts| ==> WellFormed(ts[i]))
    && (forall i :: 0 <= i < |ts| ==> ts[i].id < nextId)
  }

  /** Appending a well-formed row under the next id keeps the table valid. */
  lemma AppendKeepsTableValid(ts: seq<Ticket>, nextId: nat, t: Ticket)
    requires ValidTable(ts, nextId)
    requires WellFormed(t) && t.id == nextId
    ensures ValidTable(ts + [t], nextId + 1)
  {
  }

  /** Replacing a row by a well-formed one with the same id keeps the table valid. */
  lemma ReplaceKeepsTableValid(ts: seq<Ticket>, nextId: nat, i: nat, u: Ticket)
    requires ValidTable(ts, nextId)
    requires i < |ts| && WellFormed(u) && u.id == ts[i].id
    ensures ValidTable(ts[i := u], nextId)
  {
  }

  class TicketStore {
    /** The rows of the ticket table, in insertion order. */
    var tickets: seq<Ticket>
    /** The next primary key the table hands out. */
    var nextId: nat

    ghost predicate Valid()
      reads this
    {
      ValidTable(tickets, nextId)
    }

    constructor ()
      ensures Valid() && tickets == []
    {
      tickets := [];
      nextId := 1;
    }

    /** GET on the list endpoint: every ticket, newest first; the query parameters play no part. */
    method List(query: map<string, string>) returns (resp: Response)
      requires Valid()
      ensures resp.status == HTTP_200_OK && resp.body.TicketsBody?
      ensures resp.body.tickets == OrderByCreatedDesc(tickets)
      ensures NewestFirst(resp.body.tickets)
      ensures multiset(resp.body.tickets) == multiset(tickets)
    {
      resp := Response(HTTP_200_OK, TicketsBody(OrderByCreatedDesc(tickets)));
    }

    /**
     * POST on the list endpoint: a valid request appends exactly one new
     * ticket (fresh id, creation time `now`) and answers 201 with it; an
     * invalid one answers 400 with the errors and stores nothing.
     */
    method Create(data: Data, now: int) returns (resp: Response)
      requires Valid()
      modifies this
      ensures Valid()
      ensures ValidateCreate(data).Success? ==>
        var t := NewTicket(ValidateCreate(data).value, old(nextId), now);
        && tickets == old(tickets) + [t]
        && nextId == old(nextId) + 1
        && resp == Response(HTTP_201_CREATED, TicketBody(t))
      ensures ValidateCreate(data).Failure? ==>
        && tickets == old(tickets) && nextId == old(nextId)
        && resp == Response(HTTP_400_BAD_REQUEST, ErrorsBody(ValidateCreate(data).error))
    {
      match ValidateCreate(data)
      case Success(fields) =>
        var t := NewTicket(fields, nextId, now);
        CreatedTicketWellFormed(data, nextId, now);
        AppendKeepsTableValid(tickets, nextId, t);
        tickets := tickets + [t];
        nextId := nextId + 1;
        resp := Response(HTTP_201_CREATED, TicketBody(t));
      case Failure(errors) =>
        resp := Response(HTTP_400_BAD_REQUEST, ErrorsBody(errors));
    }

    /** GET on the detail endpoint: the ticket with that id, or "Not found". */
    method Retrieve(pk: nat) returns (resp: Response)
      requires Valid()
      ensures FindById(tickets, pk).None? ==> resp == NotFound
      ensures FindById(tickets, pk).Some? ==>
        resp == Response(HTTP_200_OK, TicketBody(tickets[FindById(tickets, pk).value]))
      ensures resp.status == HTTP_200_OK ==> resp.body.TicketBody? && resp.body.ticket.id == pk && resp.body.ticket in tickets
    {
      match FindById(tickets, pk)
      case None =>
        resp := NotFound;
      case Some(i) =>
        resp := Response(HTTP_200_OK, TicketBody(tickets[i]));
    }

    /**
     * PATCH on the detail endpoint: an unknown id answers "Not found"; an
     * invalid update answers 400; a valid one replaces that one row with
     * the merged ticket.  Nothing else in the table changes, and no row's
     * id or creation time ever does.
     */
    method Update(pk: nat, data: Data) returns (resp: Response)
      requires Valid()
      modifies this
      ensures Valid() && nextId == old(nextId) && |tickets| == |old(tickets)|
      ensures FindById(old(tickets), pk).None? ==> tickets == old(tickets) && resp == NotFound
      ensures FindById(old(tickets), pk).Some? ==>
        var i := FindById(old(tickets), pk).value;
        match PartialUpdate(old(tickets)[i], data)
        case Success(u) =>
          tickets == old(tickets)[i := u] && resp == Response(HTTP_200_OK, TicketBody(u))
        case Failure(errors) =>
          tickets == old(tickets) && resp == Response(HTTP_400_BAD_REQUEST, ErrorsBody(errors))
      ensures forall j :: 0 <= j < |tickets| ==>
        tickets[j].id == old(tickets)[j].id && tickets[j].createdAt == old(tickets)[j].createdAt
    {
      match FindById(tickets, pk)
      case None =>
        resp := NotFound;
      case Some(i) =>
        match PartialUpdate(tickets[i], data)
        case Success(u) =>
          UpdatedTicketWellFormed(tickets[i], data);
          ReplaceKeepsTableValid(tickets, nextId, i, u);
          tickets := tickets[i := u];
          resp := Response(HTTP_200_OK, TicketBody(u));
        case Failure(errors) =>
          resp := Response(HTTP_400_BAD_REQUEST, ErrorsBody(errors));
    }
  }
}
