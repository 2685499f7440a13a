/** `TicketController`: the ticket handlers over the ticket collection.

    Every handler runs a fixed sequence of checks (permission, identifier
    shape, lookup, ownership), then assigns fields of one ticket and saves
    it. Each handler is given twice: as a function from the collection
    before the request to the reply and the collection after it (the
    specification, which the lemmas at the end reason about), and as a
    method of `TicketStore` that follows the handler statement by statement
    and is proved to agree with it. The caller is the `req.user` that
    `checkAuth` attached; the user collection is read only to populate
    `createdBy`. */
module TicketController {
  import opened Base
  import opened TicketModel
  import U = UserModel

  type Tickets = map<ObjectId, Ticket>
  type Users = map<ObjectId, U.User>

  const AllRequired := "Todos los datos son obligatorios"
  const TicketNotFound := "Ticket no encontrado"
  const NotAllowed := "Sin autorización"
  const Created := "Ticket creado"
  const Updated := "Ticket actualizado"
  const Deleted := "Ticket eliminado"
  const Assigned := "Ticket asignado"
  const MarkedInProcess := "Ticket en proceso"
  const Closed := "Ticket cerrado"

  /** The collection as the database keeps it: keyed by printed ObjectIds,
      every document passed the schema's validators when it was saved. */
  predicate StoreValid(tickets: Tickets) {
    forall id :: id in tickets ==> IsStoredId(id) && Valid(tickets[id])
  }

  /** The request body of `createTicket` and `updateTicket`; `None` is a
      field the client did not send. */
  datatype TicketBody = TicketBody(
    title: Option<string>,
    shortDescription: Option<string>,
    description: Option<string>,
    category: Option<string>)

  /** The reply and the collection after the request. */
  datatype Outcome = Outcome(reply: Reply, tickets: Tickets)

  predicate SupportActor(actor: U.Profile) {
    U.HasSupport(actor.permissions)
  }

  // ---------------------------------------------------------------------
  // Reads

  /** A user as `populate({select: "-password -__v -updatedAt -isActive -isConfirmed"})`
      embeds it. */
  datatype Creator = Creator(
    id: ObjectId,
    name: string,
    lastName: string,
    email: string,
    avatar: U.Avatar,
    permissions: seq<U.Permission>)

  /** The populated `createdBy`: `null` when the user no longer exists. */
  function Populate(users: Users, id: ObjectId): Option<Creator> {
    if id in users then
      var u := users[id];
      Some(Creator(id, u.name, u.lastName, u.email, u.avatar, u.permissions))
    else None
  }

  /** A ticket as the reads return it: `createdBy` populated, `assignedTo`
      left as an identifier. */
  datatype TicketView = TicketView(ticket: Ticket, createdBy: Option<Creator>)

  function View(tickets: Tickets, users: Users, id: ObjectId): TicketView
    requires id in tickets
  {
    TicketView(tickets[id], Populate(users, tickets[id].createdBy))
  }

  /** `getAllTickets`: a caller without `support` sees exactly the tickets
      it created, a `support` caller sees every ticket. No order is imposed. */
  function GetAllTickets(tickets: Tickets, users: Users, actor: U.Profile): (r: map<ObjectId, TicketView>)
    ensures !SupportActor(actor) ==>
              forall id :: id in r <==> id in tickets && tickets[id].createdBy == actor.id
    ensures SupportActor(actor) ==> r.Keys == tickets.Keys
    ensures forall id :: id in r ==> id in tickets && r[id] == View(tickets, users, id)
  {
    if !SupportActor(actor) then
      map id | id in tickets && tickets[id].createdBy == actor.id :: View(tickets, users, id)
    else
      map id | id in tickets :: View(tickets, users, id)
  }

  /** `getTicketById`: a malformed identifier and a missing ticket are both
      404; there is no caller and hence no ownership check. */
  function GetTicketById(tickets: Tickets, users: Users, ticketId: string): (r: Result<TicketView>)
    ensures !IsValidId(ticketId) ==> r == Err(Reply(404, InvalidId))
    ensures IsValidId(ticketId) && IdKey(ticketId) !in tickets ==> r == Err(Reply(404, TicketNotFound))
    ensures r.Ok? <==> IsValidId(ticketId) && IdKey(ticketId) in tickets
    ensures r.Ok? ==> (r.value.ticket == tickets[IdKey(ticketId)]
                       && r.value.createdBy == Populate(users, tickets[IdKey(ticketId)].createdBy))
  {
    if !IsValidId(ticketId) then Err(Reply(404, InvalidId))
    else if IdKey(ticketId) !in tickets then Err(Reply(404, TicketNotFound))
    else Ok(View(tickets, users, IdKey(ticketId)))
  }

  // ---------------------------------------------------------------------
  // Writes, as functions of the collection

  predicate AllTruthy(body: TicketBody) {
    Truthy(body.title) && Truthy(body.shortDescription) && Truthy(body.description)
    && Truthy(body.category)
  }

  /** A supplied text field that the `trim` setter empties, so that the
      `required` validator rejects the save. */
  predicate AnyBlank(body: TicketBody) {
    Blank(body.title) || Blank(body.shortDescription) || Blank(body.description)
  }

  /** The document `createTicket` builds for a caller from a body whose four
      fields are truthy. */
  function NewTicketFor(actor: U.Profile, body: TicketBody): (t: Ticket)
    requires AllTruthy(body)
    ensures Valid(t) <==> !AnyBlank(body)
  {
    New(body.title.value, body.shortDescription.value, body.description.value,
        body.category.value, actor.id)
  }

  /** `createTicket`: 400 unless all four fields are truthy, 500 when the
      validators reject the trimmed document, otherwise exactly one document
      is added (see `CreatedTicket` for its fields). */
  function Create(tickets: Tickets, actor: U.Profile, body: TicketBody, newId: ObjectId): (o: Outcome)
    requires StoreValid(tickets) && IsStoredId(newId) && newId !in tickets
    ensures StoreValid(o.tickets)
    ensures !AllTruthy(body) ==> o == Outcome(Reply(400, AllRequired), tickets)
    ensures o.reply.status == 202 <==> AllTruthy(body) && !AnyBlank(body)
    ensures o.reply.status != 202 ==> o.tickets == tickets
    ensures o.reply.status == 202 ==>
              o.reply.message == Created && o.tickets == tickets[newId := NewTicketFor(actor, body)]
    ensures o.reply.status in {202, 400, 500}
  {
    if !AllTruthy(body) then Outcome(Reply(400, AllRequired), tickets)
    else
      var t := NewTicketFor(actor, body);
      if !Valid(t) then Outcome(Reply(500, ServerError), tickets)
      else Outcome(Reply(202, Created), tickets[newId := t])
  }

  /** A created ticket belongs to its creator, is `pending`, has neither
      assignee nor due date, holds the trimmed body, and is the only
      document added. */
  lemma CreatedTicket(tickets: Tickets, actor: U.Profile, body: TicketBody, newId: ObjectId)
    requires StoreValid(tickets) && IsStoredId(newId) && newId !in tickets
    requires Create(tickets, actor, body, newId).reply.status == 202
    ensures var after := Create(tickets, actor, body, newId).tickets;
            && after.Keys == tickets.Keys + {newId}
            && (forall id :: id in tickets ==> after[id] == tickets[id])
            && var t := after[newId];
            && t.createdBy == actor.id && t.status == Pending
            && t.assignedTo == None && t.dueDate == None
            && t.title == Trim(body.title.value)
            && t.shortDescription == Trim(body.shortDescription.value)
            && t.description == Trim(body.description.value)
            && t.category == body.category.value
  {
    var t := NewTicketFor(actor, body);
    assert Create(tickets, actor, body, newId).tickets == tickets[newId := t];
  }

  /** The four `x = body.x || ticket.x` assignments of `updateTicket`, with the
      `trim` setter applied to the three text fields: a field changes only
      when the body supplies a truthy value for it, and status, assignment,
      due date and creator never change. */
  function Merge(t: Ticket, body: TicketBody): (m: Ticket)
    requires Valid(t)
    ensures Valid(m) <==> !AnyBlank(body)
    ensures m.title == (if Truthy(body.title) then Trim(body.title.value) else t.title)
    ensures m.shortDescription ==
              (if Truthy(body.shortDescription) then Trim(body.shortDescription.value) else t.shortDescription)
    ensures m.description ==
              (if Truthy(body.description) then Trim(body.description.value) else t.description)
    ensures m.category == (if Truthy(body.category) then body.category.value else t.category)
    ensures m.status == t.status && m.assignedTo == t.assignedTo
    ensures m.dueDate == t.dueDate && m.createdBy == t.createdBy
  {
    AssignTrimmed(body.title, t.title);
    AssignTrimmed(body.shortDescription, t.shortDescription);
    AssignTrimmed(body.description, t.description);
    t.(title := Trim(OrElse(body.title, t.title)),
       shortDescription := Trim(OrElse(body.shortDescription, t.shortDescription)),
       description := Trim(OrElse(body.description, t.description)),
       category := OrElse(body.category, t.category))
  }

  /** The checks `updateTicket` and `deleteTicket` share before touching the
      document: identifier shape, lookup, ownership. */
  predicate OwnedBy(tickets: Tickets, ticketId: string, actor: U.Profile) {
    IsValidId(ticketId) && IdKey(ticketId) in tickets && tickets[IdKey(ticketId)].createdBy == actor.id
  }

  /** `updateTicket`: only the creator may update, whatever its permissions;
      on success the one ticket becomes `Merge` of itself and the body. */
  function Update(tickets: Tickets, users: Users, actor: U.Profile, ticketId: string,
                  body: TicketBody): (o: Outcome)
    requires StoreValid(tickets)
    ensures StoreValid(o.tickets)
    ensures !IsValidId(ticketId) ==> o == Outcome(Reply(404, InvalidId), tickets)
    ensures IsValidId(ticketId) && IdKey(ticketId) !in tickets ==> o == Outcome(Reply(404, TicketNotFound), tickets)
    ensures (IsValidId(ticketId) && IdKey(ticketId) in tickets && tickets[IdKey(ticketId)].createdBy in users
             && tickets[IdKey(ticketId)].createdBy != actor.id) ==> o == Outcome(Reply(409, NotAllowed), tickets)
    ensures o.reply.status == 200 <==>
              OwnedBy(tickets, ticketId, actor) && actor.id in users && !AnyBlank(body)
    ensures o.reply.status != 200 ==> o.tickets == tickets
    ensures o.reply.status == 200 ==>
              o.reply.message == Updated &&
              o.tickets == tickets[IdKey(ticketId) := Merge(tickets[IdKey(ticketId)], body)]
  {
    if !IsValidId(ticketId) then Outcome(Reply(404, InvalidId), tickets)
    else
      var key := IdKey(ticketId);
      if key !in tickets then Outcome(Reply(404, TicketNotFound), tickets)
      // The populated `createdBy` is null when its user is gone: `null._id` throws.
      else if tickets[key].createdBy !in users then Outcome(Reply(500, ServerError), tickets)
      else if actor.id != tickets[key].createdBy then Outcome(Reply(409, NotAllowed), tickets)
      else
        var t := Merge(tickets[key], body);
        if !Valid(t) then Outcome(Reply(500, ServerError), tickets)
        else Outcome(Reply(200, Updated), tickets[key := t])
  }

  /** `deleteTicket`: only the creator may delete, whatever its permissions,
      and exactly the target ticket is removed. */
  function Delete(tickets: Tickets, actor: U.Profile, ticketId: string): (o: Outcome)
    requires StoreValid(tickets)
    ensures StoreValid(o.tickets)
    ensures !IsValidId(ticketId) ==> o == Outcome(Reply(404, InvalidId), tickets)
    ensures IsValidId(ticketId) && IdKey(ticketId) !in tickets ==> o == Outcome(Reply(404, TicketNotFound), tickets)
    ensures (IsValidId(ticketId) && IdKey(ticketId) in tickets && tickets[IdKey(ticketId)].createdBy != actor.id)
              ==> o == Outcome(Reply(409, NotAllowed), tickets)
    ensures o.reply.status == 200 <==> OwnedBy(tickets, ticketId, actor)
    ensures o.reply.status == 200 ==> (o.reply.message == Deleted
                                       && o.tickets.Keys == tickets.Keys - {IdKey(ticketId)}
                                       && forall id :: id in o.tickets ==> o.tickets[id] == tickets[id])
    ensures o.reply.status != 200 ==> o.tickets == tickets
  {
    if !IsValidId(ticketId) then Outcome(Reply(404, InvalidId), tickets)
    else if IdKey(ticketId) !in tickets then Outcome(Reply(404, TicketNotFound), tickets)
    else if actor.id != tickets[IdKey(ticketId)].createdBy then Outcome(Reply(409, NotAllowed), tickets)
    else Outcome(Reply(200, Deleted), tickets - {IdKey(ticketId)})
  }

  /** The checks `assignUserSupport`, `ticketInProcess` and `closeTicket`
      share. The permission comes first, so a caller without `support` gets
      401 whether or not the ticket exists. `findById` throws a cast error
      (500) for a malformed identifier, since these handlers do not test its
      shape. */
  function SupportGate(tickets: Tickets, actor: U.Profile, ticketId: string): Option<Reply> {
    if !SupportActor(actor) then Some(Reply(401, NotAllowed))
    else if !IsValidId(ticketId) then Some(Reply(500, ServerError))
    else if IdKey(ticketId) !in tickets then Some(Reply(404, TicketNotFound))
    else None
  }

  /** What every support-only transition promises about its checks. */
  predicate GatedBy(tickets: Tickets, actor: U.Profile, ticketId: string, o: Outcome) {
    && (!SupportActor(actor) ==> o == Outcome(Reply(401, NotAllowed), tickets))
    && (SupportActor(actor) && !IsValidId(ticketId) ==> o == Outcome(Reply(500, ServerError), tickets))
    && ((SupportActor(actor) && IsValidId(ticketId) && IdKey(ticketId) !in tickets)
          ==> o == Outcome(Reply(404, TicketNotFound), tickets))
    && (o.reply.status == 200 <==> SupportActor(actor) && IsValidId(ticketId) && IdKey(ticketId) in tickets)
    && (o.reply.status != 200 ==> o.tickets == tickets)
  }

  /** `assignUserSupport`: the caller becomes `assignedTo`; nothing else of
      the ticket changes, the status included. */
  function Assign(tickets: Tickets, actor: U.Profile, ticketId: string): (o: Outcome)
    requires StoreValid(tickets)
    ensures StoreValid(o.tickets) && GatedBy(tickets, actor, ticketId, o)
    ensures o.reply.status == 200 ==>
              o.reply.message == Assigned &&
              o.tickets == tickets[IdKey(ticketId) := tickets[IdKey(ticketId)].(assignedTo := Some(actor.id))]
  {
    var gate := SupportGate(tickets, actor, ticketId);
    if gate.Some? then Outcome(gate.value, tickets)
    else Outcome(Reply(200, Assigned), tickets[IdKey(ticketId) := tickets[IdKey(ticketId)].(assignedTo := Some(actor.id))])
  }

  /** `ticketInProcess`: from any status the ticket becomes `inProcess` and
      its `dueDate` is whatever the body carried, absent included. */
  function MarkInProcess(tickets: Tickets, actor: U.Profile, ticketId: string, dueDate: Option<Date>): (o: Outcome)
    requires StoreValid(tickets)
    ensures StoreValid(o.tickets) && GatedBy(tickets, actor, ticketId, o)
    ensures o.reply.status == 200 ==>
              o.reply.message == MarkedInProcess &&
              o.tickets == tickets[IdKey(ticketId) := tickets[IdKey(ticketId)].(status := InProcess, dueDate := dueDate)]
  {
    var gate := SupportGate(tickets, actor, ticketId);
    if gate.Some? then Outcome(gate.value, tickets)
    else Outcome(Reply(200, MarkedInProcess),
                 tickets[IdKey(ticketId) := tickets[IdKey(ticketId)].(dueDate := dueDate, status := InProcess)])
  }

  /** `closeTicket`: requires `support`; from any status, `pending` included,
      the ticket becomes `completed` and nothing else changes. */
  function Close(tickets: Tickets, actor: U.Profile, ticketId: string): (o: Outcome)
    requires StoreValid(tickets)
    ensures StoreValid(o.tickets) && GatedBy(tickets, actor, ticketId, o)
    ensures o.reply.status == 200 ==>
              o.reply.message == Closed &&
              o.tickets == tickets[IdKey(ticketId) := tickets[IdKey(ticketId)].(status := Completed)]
  {
    var gate := SupportGate(tickets, actor, ticketId);
    if gate.Some? then Outcome(gate.value, tickets)
    else Outcome(Reply(200, Closed), tickets[IdKey(ticketId) := tickets[IdKey(ticketId)].(status := Completed)])
  }

  // ---------------------------------------------------------------------
  // Properties across handlers

  /** The life of a ticket: a caller creates it, a support user takes it,
      marks it in process with a due date and closes it. Each step succeeds,
      the ticket keeps its creator and content throughout, and it ends
      `completed`, assigned to that support user, with that due date. */
  lemma Lifecycle(tickets: Tickets, creator: U.Profile, support: U.Profile, body: TicketBody,
                  newId: ObjectId, dueDate: Option<Date>)
    requires StoreValid(tickets) && IsStoredId(newId) && newId !in tickets
    requires AllTruthy(body) && !AnyBlank(body) && SupportActor(support)
    ensures var created := Create(tickets, creator, body, newId);
            var taken := Assign(created.tickets, support, newId);
            var started := MarkInProcess(taken.tickets, support, newId, dueDate);
            var closed := Close(started.tickets, support, newId);
            && created.reply.status == 202 && taken.reply.status == 200
            && started.reply.status == 200 && closed.reply.status == 200
            && taken.tickets[newId].status == Pending
            && started.tickets[newId].status == InProcess
            && closed.tickets[newId] ==
                 NewTicketFor(creator, body).(assignedTo := Some(support.id), dueDate := dueDate,
                                              status := Completed)
            && closed.tickets.Keys == tickets.Keys + {newId}
  {
    var created := Create(tickets, creator, body, newId);
    CreatedTicket(tickets, creator, body, newId);
    var taken := Assign(created.tickets, support, newId);
    var started := MarkInProcess(taken.tickets, support, newId, dueDate);
    assert started.tickets[newId] ==
             NewTicketFor(creator, body).(assignedTo := Some(support.id), dueDate := dueDate,
                                          status := InProcess);
  }

  /** A ticket just created is listed for its creator and for support users,
      and for no other caller. */
  lemma CreatedTicketVisibility(tickets: Tickets, users: Users, creator: U.Profile, body: TicketBody,
                                newId: ObjectId, other: U.Profile)
    requires StoreValid(tickets) && IsStoredId(newId) && newId !in tickets
    requires Create(tickets, creator, body, newId).reply.status == 202
    ensures var after := Create(tickets, creator, body, newId).tickets;
            && newId in GetAllTickets(after, users, creator)
            && (SupportActor(other) || other.id == creator.id <==> newId in GetAllTickets(after, users, other))
  {
    CreatedTicket(tickets, creator, body, newId);
  }

  /** A deleted ticket is gone: reading it afterwards is 404. */
  lemma DeletedTicketGone(tickets: Tickets, users: Users, actor: U.Profile, ticketId: string)
    requires StoreValid(tickets) && Delete(tickets, actor, ticketId).reply.status == 200
    ensures GetTicketById(Delete(tickets, actor, ticketId).tickets, users, ticketId)
              == Err(Reply(404, TicketNotFound))
  {
  }

  /** A ticket is found whatever the letter case of the identifier in the
      URL: identifiers that differ only in case read the same ticket. */
  lemma GetTicketByIdIgnoresCase(tickets: Tickets, users: Users, a: string, b: string)
    requires IsValidId(a) && IsValidId(b) && ToLower(a) == ToLower(b)
    ensures GetTicketById(tickets, users, a) == GetTicketById(tickets, users, b)
  {
    IdKeyIgnoresCase(a, b);
  }

  /** The upper-case spelling of a stored ticket's identifier finds it. */
  lemma UpperCaseIdFindsTicket(tickets: Tickets, users: Users)
    requires "507f1f77bcf86cd799439011" in tickets
    ensures GetTicketById(tickets, users, "507F1F77BCF86CD799439011")
              == Ok(View(tickets, users, "507f1f77bcf86cd799439011"))
  {
    var upper := "507F1F77BCF86CD799439011";
    assert IsValidId(upper);
    assert ToLower(upper) == "507f1f77bcf86cd799439011";
  }

  /** Sending the same update twice leaves the ticket as the first one did:
      the `trim` setter is idempotent. */
  lemma MergeIdempotent(t: Ticket, body: TicketBody)
    requires Valid(t) && !AnyBlank(body)
    ensures Merge(Merge(t, body), body) == Merge(t, body)
  {
    var m := Merge(t, body);
    if Truthy(body.title) { TrimIdempotent(body.title.value); }
    if Truthy(body.shortDescription) { TrimIdempotent(body.shortDescription.value); }
    if Truthy(body.description) { TrimIdempotent(body.description.value); }
  }

  /** An update may be repeated: the second identical request succeeds and
      changes nothing. */
  lemma UpdateRepeatable(tickets: Tickets, users: Users, actor: U.Profile, ticketId: string,
                         body: TicketBody)
    requires StoreValid(tickets) && Update(tickets, users, actor, ticketId, body).reply.status == 200
    ensures var once := Update(tickets, users, actor, ticketId, body);
            Update(once.tickets, users, actor, ticketId, body) == once
  {
    var once := Update(tickets, users, actor, ticketId, body);
    var key := IdKey(ticketId);
    MergeIdempotent(tickets[key], body);
    assert once.tickets[key := Merge(once.tickets[key], body)] == once.tickets;
  }

  // ---------------------------------------------------------------------
  // The handlers, statement by statement, over the stored collection

  class TicketStore {
    var tickets: Tickets

    ghost predicate Valid()
      reads this
    {
      StoreValid(tickets)
    }

    constructor ()
      ensures Valid() && tickets == map[]
    {
      tickets := map[];
    }

    /** `createTicket`. `newId` is the identifier the database assigns. */
    method CreateTicket(actor: U.Profile, body: TicketBody, newId: ObjectId) returns (reply: Reply)
      requires Valid() && IsStoredId(newId) && newId !in tickets
      modifies this
      ensures Valid()
      ensures Outcome(reply, tickets) == Create(old(tickets), actor, body, newId)
    {
      if !Truthy(body.title) || !Truthy(body.shortDescription) || !Truthy(body.description)
         || !Truthy(body.category) {
        return Reply(400, AllRequired);
      }
      var ticket := New(body.title.value, body.shortDescription.value, body.description.value,
                        body.category.value, actor.id);
      assert ticket == NewTicketFor(actor, body);
      // `save()` runs the validators.
      if !TicketModel.Valid(ticket) {
        return Reply(500, ServerError);
      }
      tickets := tickets[newId := ticket];
      reply := Reply(202, Created);
    }

    /** `updateTicket`. */
    method UpdateTicket(users: Users, actor: U.Profile, ticketId: string, body: TicketBody)
      returns (reply: Reply)
      requires Valid()
      modifies this
      ensures Valid()
      ensures Outcome(reply, tickets) == Update(old(tickets), users, actor, ticketId, body)
    {
      if !IsValidId(ticketId) {
        return Reply(404, InvalidId);
      }
      // `findById` casts the text to an ObjectId.
      var key := IdKey(ticketId);
      if key !in tickets {
        return Reply(404, TicketNotFound);
      }
      var ticket := tickets[key];
      if ticket.createdBy !in users {
        return Reply(500, ServerError);
      }
      if actor.id != ticket.createdBy {
        return Reply(409, NotAllowed);
      }
      ticket := ticket.(title := Trim(OrElse(body.title, ticket.title)));
      ticket := ticket.(shortDescription := Trim(OrElse(body.shortDescription, ticket.shortDescription)));
      ticket := ticket.(description := Trim(OrElse(body.description, ticket.description)));
      ticket := ticket.(category := OrElse(body.category, ticket.category));
      assert ticket == Merge(tickets[key], body);
      if !TicketModel.Valid(ticket) {
        return Reply(500, ServerError);
      }
      tickets := tickets[key := ticket];
      reply := Reply(200, Updated);
    }

    /** `deleteTicket`. */
    method DeleteTicket(actor: U.Profile, ticketId: string) returns (reply: Reply)
      requires Valid()
      modifies this
      ensures Valid()
      ensures Outcome(reply, tickets) == Delete(old(tickets), actor, ticketId)
    {
      if !IsValidId(ticketId) {
        return Reply(404, InvalidId);
      }
      // `findById` casts the text to an ObjectId.
      var key := IdKey(ticketId);
      if key !in tickets {
        return Reply(404, TicketNotFound);
      }
      if actor.id != tickets[key].createdBy {
        return Reply(409, NotAllowed);
      }
      tickets := tickets - {key};
      reply := Reply(200, Deleted);
    }

    /** `assignUserSupport`. */
    method AssignUserSupport(actor: U.Profile, ticketId: string) returns (reply: Reply)
      requires Valid()
      modifies this
      ensures Valid()
      ensures Outcome(reply, tickets) == Assign(old(tickets), actor, ticketId)
    {
      if !U.HasSupport(actor.permissions) {
        return Reply(401, NotAllowed);
      }
      if !IsValidId(ticketId) {
        return Reply(500, ServerError);
      }
      // `findById` casts the text to an ObjectId.
      var key := IdKey(ticketId);
      if key !in tickets {
        return Reply(404, TicketNotFound);
      }
      var ticket := tickets[key];
      ticket := ticket.(assignedTo := Some(actor.id));
      tickets := tickets[key := ticket];
      reply := Reply(200, Assigned);
    }

    /** `ticketInProcess`. */
    method TicketInProcess(actor: U.Profile, ticketId: string, dueDate: Option<Date>) returns (reply: Reply)
      requires Valid()
      modifies this
      ensures Valid()
      ensures Outcome(reply, tickets) == MarkInProcess(old(tickets), actor, ticketId, dueDate)
    {
      if !U.HasSupport(actor.permissions) {
        return Reply(401, NotAllowed);
      }
      if !IsValidId(ticketId) {
        return Reply(500, ServerError);
      }
      // `findById` casts the text to an ObjectId.
      var key := IdKey(ticketId);
      if key !in tickets {
        return Reply(404, TicketNotFound);
      }
      var ticket := tickets[key];
      ticket := ticket.(dueDate := dueDate);
      ticket := ticket.(status := InProcess);
      tickets := tickets[key := ticket];
      reply := Reply(200, MarkedInProcess);
    }

    /** `closeTicket`. */
    method CloseTicket(actor: U.Profile, ticketId: string) returns (reply: Reply)
      requires Valid()
      modifies this
      ensures Valid()
      ensures Outcome(reply, tickets) == Close(old(tickets), actor, ticketId)
    {
      if !U.HasSupport(actor.permissions) {
        return Reply(401, NotAllowed);
      }
      if !IsValidId(ticketId) {
        return Reply(500, ServerError);
      }
      // `findById` casts the text to an ObjectId.
      var key := IdKey(ticketId);
      if key !in tickets {
        return Reply(404, TicketNotFound);
      }
      var ticket := tickets[key];
      ticket := ticket.(status := Completed);
      tickets := tickets[key := ticket];
      reply := Reply(200, Closed);
    }
  }
}
