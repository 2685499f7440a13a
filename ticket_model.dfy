/** The `Ticket` schema: its fields, the closed status enumeration, the
    default status, and what the schema's validators demand when a ticket
    is saved. */
module TicketModel {
  import opened Base

  /** The `status` enumeration; no other value can be stored. */
  datatype Status = Pending | InProcess | Completed

  datatype Ticket = Ticket(
    title: string,
    shortDescription: string,
    description: string,
    status: Status,
    dueDate: Option<Date>,
    category: string,
    createdBy: ObjectId,
    assignedTo: Option<ObjectId>)

  /** What the schema's validators accept on `save()`: the three text fields
      are required (not empty) and kept trimmed by their setters; `category`
      is required but not trimmed; `status` is one of the enumeration by
      construction; `createdBy` is always present. */
  predicate Valid(t: Ticket) {
    && t.title != "" && IsTrimmed(t.title)
    && t.shortDescription != "" && IsTrimmed(t.shortDescription)
    && t.description != "" && IsTrimmed(t.description)
    && t.category != ""
  }

  /** `new Ticket({title, shortDescription, description, category, createdBy})`:
      the `trim` setters run, `status` takes its default, `dueDate` and
      `assignedTo` stay unset. The document is saved only when it is valid,
      which for a truthy input fails exactly when a text field held only
      white space. */
  function New(title: string, shortDescription: string, description: string,
               category: string, createdBy: ObjectId): (t: Ticket)
    ensures t.status == Pending
    ensures t.dueDate == None && t.assignedTo == None
    ensures t.createdBy == createdBy && t.category == category
    ensures t.title == Trim(title) && t.shortDescription == Trim(shortDescription)
    ensures t.description == Trim(description)
    ensures Valid(t) <==>
              !AllSpace(title) && !AllSpace(shortDescription) && !AllSpace(description)
              && category != ""
  {
    TrimEmptyIffAllSpace(title);
    TrimEmptyIffAllSpace(shortDescription);
    TrimEmptyIffAllSpace(description);
    Ticket(Trim(title), Trim(shortDescription), Trim(description), Pending, None,
           category, createdBy, None)
  }
}
