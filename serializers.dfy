/**
 * `TicketSerializer`: a model serializer over every `Ticket` field, with
 * `id` and `created_at` read-only and the two custom validators for the
 * title and the description.  Request bodies are JSON objects; the model
 * validates each writable field the way the serializer's generated fields
 * do (null rejected, text required, length limit, choice membership) and
 * then applies the custom validators.
 */
module Serializers {
  import opened Wrappers
  import opened Text
  import opened Models

  /** A JSON value as it appears in a request or response body. */
  datatype Json = JString(s: string) | JInt(i: int) | JNull

  /** A JSON object (request data or a ticket representation). */
  type Data = map<string, Json>

  /** Why one field was rejected. */
  datatype FieldError =
    | Required                      // a field needed on create is absent
    | MayNotBeNull                  // the field is present but null
    | NotAString                    // a number where text is expected
    | Blank(message: string)        // rejected by validate_title / validate_description
    | TooLong(maxLength: nat)       // over the column's max_length
    | InvalidChoice(value: Json)    // not one of the field's choices

  /** Per-field error map, as in the body of a 400 response. */
  type Errors = map<string, FieldError>

  const TitleRequiredMessage := "Title is required."
  const DescriptionRequiredMessage := "Description is required."

  const ModelFields: set<string> :=
    {"id", "title", "description", "category", "priority", "status", "created_at"}
  const ReadOnlyFields: set<string> := {"id", "created_at"}
  const WritableFields: set<string> := {"title", "description", "category", "priority", "status"}

  /** Empty or whitespace-only under Python's `str.isspace`. */
  predicate IsBlank(s: string) {
    AllSpace(s, IsPySpace)
  }

  /** `validate_title`: reject empty or whitespace-only text, otherwise return it untouched. */
  function ValidateTitle(value: string): (r: Result<string, string>)
    ensures r.Failure? <==> IsBlank(value)
    ensures r.Success? ==> r.value == value
    ensures r.Failure? ==> r.error == TitleRequiredMessage
  {
    StripEmptyIffAllSpace(value, IsPySpace);
    if value == "" || PyStrip(value) == "" then Failure(TitleRequiredMessage) else Success(value)
  }

  /** `validate_description`: the same guard with its own message. */
  function ValidateDescription(value: string): (r: Result<string, string>)
    ensures r.Failure? <==> IsBlank(value)
    ensures r.Success? ==> r.value == value
    ensures r.Failure? ==> r.error == DescriptionRequiredMessage
  {
    StripEmptyIffAllSpace(value, IsPySpace);
    if value == "" || PyStrip(value) == "" then Failure(DescriptionRequiredMessage) else Success(value)
  }

  /** The choices list of a choice field. */
  function ChoicesOf(field: string): Choices
    requires field in {"category", "priority", "status"}
  {
    if field == "category" then CategoryChoices
    else if field == "priority" then PriorityChoices
    else StatusChoices
  }

  /** The model default of a choice field. */
  function DefaultOf(field: string): string
    requires field in {"category", "priority", "status"}
  {
    if field == "category" then DefaultCategory.Value()
    else if field == "priority" then DefaultPriority.Value()
    else DefaultStatus.Value()
  }

  /** What a writable field admits once it has been given text. */
  predicate Acceptable(field: string, s: string)
    requires field in WritableFields
  {
    if field == "title" then |s| <= TitleMaxLength && !IsBlank(s)
    else if field == "description" then !IsBlank(s)
    else s in ChoiceValues(ChoicesOf(field))
  }

  /**
   * A supplied value for a writable field: the text to store, or why it is
   * rejected.  The model checks null, then type, then length, then applies
   * the custom validator or the choice list to the text as supplied.  The
   * framework's own blank check, which runs before type and length and
   * before the custom validators, is not part of this model.
   */
  function ValidateField(field: string, v: Json): (r: Result<string, FieldError>)
    requires field in WritableFields
    ensures r.Success? <==> v.JString? && Acceptable(field, v.s)
    ensures r.Success? ==> r.value == v.s
    ensures v.JNull? ==> r == Failure(MayNotBeNull)
    ensures field == "title" && v.JString? && |v.s| > TitleMaxLength ==> r == Failure(TooLong(TitleMaxLength))
    ensures field == "title" && v.JString? && |v.s| <= TitleMaxLength && IsBlank(v.s) ==>
              r == Failure(Blank(TitleRequiredMessage))
    ensures field == "description" && v.JString? && IsBlank(v.s) ==> r == Failure(Blank(DescriptionRequiredMessage))
    ensures field in {"category", "priority", "status"} && !v.JNull? && r.Failure? ==> r == Failure(InvalidChoice(v))
  {
    match v
    case JNull => Failure(MayNotBeNull)
    case JInt(_) =>
      if field == "title" || field == "description" then Failure(NotAString) else Failure(InvalidChoice(v))
    case JString(s) =>
      if field == "title" then
        if |s| > TitleMaxLength then Failure(TooLong(TitleMaxLength))
        else match ValidateTitle(s)
          case Success(t) => Success(t)
          case Failure(m) => Failure(Blank(m))
      else if field == "description" then
        match ValidateDescription(s)
        case Success(d) => Success(d)
        case Failure(m) => Failure(Blank(m))
      else if s in ChoiceValues(ChoicesOf(field)) then Success(s)
      else Failure(InvalidChoice(v))
  }

  /** Full (create) validation of one field: title and description are required, the rest default. */
  function CreateField(data: Data, field: string): Result<string, FieldError>
    requires field in WritableFields
  {
    if field in data then ValidateField(field, data[field])
    else if field == "title" || field == "description" then Failure(Required)
    else Success(DefaultOf(field))
  }

  /** A writable field supplied as text is accepted exactly when the field admits that text. */
  lemma CreateFieldOfText(data: Data, field: string, s: string)
    requires field in WritableFields && field in data && data[field] == JString(s)
    ensures CreateField(data, field).Success? <==> Acceptable(field, s)
  {
  }

  /** The writable fields, one by one. */
  lemma WritableFieldNames(f: string)
    requires f in WritableFields
    ensures f == "title" || f == "description" || f == "category" || f == "priority" || f == "status"
  {
  }

  /** Every writable field is accepted exactly when each of the five, named one by one, is. */
  lemma EveryFieldAcceptedByName(data: Data)
    ensures (forall f :: f in WritableFields ==> CreateField(data, f).Success?) <==>
      && CreateField(data, "title").Success? && CreateField(data, "description").Success?
      && CreateField(data, "category").Success? && CreateField(data, "priority").Success?
      && CreateField(data, "status").Success?
  {
    if && CreateField(data, "title").Success? && CreateField(data, "description").Success?
       && CreateField(data, "category").Success? && CreateField(data, "priority").Success?
       && CreateField(data, "status").Success?
    {
      forall f | f in WritableFields
        ensures CreateField(data, f).Success?
      {
        WritableFieldNames(f);
      }
    }
  }

  /** The writable fields of a validated create request. */
  datatype TicketFields = TicketFields(
    title: string, description: string, category: string, priority: string, status: string)

  /** The errors of a create request: one entry per rejected writable field. */
  function CreateErrors(data: Data): (errs: Errors)
    ensures errs.Keys <= WritableFields
    ensures forall f :: f in WritableFields ==> (f in errs <==> CreateField(data, f).Failure?)
    ensures forall f :: f in errs ==> errs[f] == CreateField(data, f).error
  {
    map f | f in WritableFields && CreateField(data, f).Failure? :: CreateField(data, f).error
  }

  /** What a create request stores in one field once every field is valid. */
  predicate CreatedFrom(data: Data, field: string, value: string)
    requires field in WritableFields
  {
    if field in data then data[field] == JString(value) && Acceptable(field, value)
    else field !in {"title", "description"} && value == DefaultOf(field)
  }

  /**
   * `is_valid()` on a create request: either every writable field is
   * acceptable (the supplied text, or the default when a choice field is
   * absent) or the per-field error map, which is never empty then.
   */
  function ValidateCreate(data: Data): (r: Result<TicketFields, Errors>)
    ensures r.Failure? <==> CreateErrors(data) != map[]
    ensures r.Failure? ==> r.error == CreateErrors(data)
    ensures r.Success? ==>
      && CreatedFrom(data, "title", r.value.title)
      && CreatedFrom(data, "description", r.value.description)
      && CreatedFrom(data, "category", r.value.category)
      && CreatedFrom(data, "priority", r.value.priority)
      && CreatedFrom(data, "status", r.value.status)
  {
    var errs := CreateErrors(data);
    if errs != map[] then Failure(errs)
    else
      assert forall f :: f in WritableFields ==> f !in errs;
      Success(TicketFields(
        CreateField(data, "title").value,
        CreateField(data, "description").value,
        CreateField(data, "category").value,
        CreateField(data, "priority").value,
        CreateField(data, "status").value))
  }

  /** A create request is accepted exactly when each writable field is. */
  lemma CreateAcceptedIffEveryField(data: Data)
    ensures ValidateCreate(data).Success? <==>
      forall f :: f in WritableFields ==> CreateField(data, f).Success?
  {
  }

  /** `save()` of a valid create: the store supplies the id and the creation time. */
  function NewTicket(f: TicketFields, id: nat, now: int): (t: Ticket)
    ensures t.id == id && t.createdAt == now
  {
    Ticket(id, f.title, f.description, f.category, f.priority, f.status, now)
  }

  /** The errors of a partial update: only supplied writable fields are checked. */
  function PartialErrors(data: Data): (errs: Errors)
    ensures errs.Keys <= WritableFields
    ensures forall f :: f in WritableFields ==>
      (f in errs <==> f in data && ValidateField(f, data[f]).Failure?)
  {
    map f | f in WritableFields && f in data && ValidateField(f, data[f]).Failure? :: ValidateField(f, data[f]).error
  }

  /** The new value of one field under a partial update. */
  function Merged(data: Data, field: string, current: string): string
    requires field in WritableFields
  {
    if field in data && ValidateField(field, data[field]).Success? then ValidateField(field, data[field]).value
    else current
  }

  /** A field after a successful partial update: the supplied text, or unchanged when not supplied. */
  predicate UpdatedFrom(data: Data, field: string, before: string, after: string)
    requires field in WritableFields
  {
    if field in data then data[field] == JString(after) && Acceptable(field, after)
    else after == before
  }

  /**
   * `is_valid()` and `save()` with `partial=True`: the supplied fields
   * replace the current ones; `id`, `created_at` and every field not
   * supplied stay as they were; any rejected field rejects the whole update.
   */
  function PartialUpdate(t: Ticket, data: Data): (r: Result<Ticket, Errors>)
    ensures r.Failure? <==> PartialErrors(data) != map[]
    ensures r.Failure? ==> r.error == PartialErrors(data)
    ensures r.Success? ==>
      && r.value.id == t.id && r.value.createdAt == t.createdAt
      && UpdatedFrom(data, "title", t.title, r.value.title)
      && UpdatedFrom(data, "description", t.description, r.value.description)
      && UpdatedFrom(data, "category", t.category, r.value.category)
      && UpdatedFrom(data, "priority", t.priority, r.value.priority)
      && UpdatedFrom(data, "status", t.status, r.value.status)
  {
    var errs := PartialErrors(data);
    if errs != map[] then Failure(errs)
    else
      assert forall f :: f in WritableFields ==> f !in errs;
      Success(t.(
        title := Merged(data, "title", t.title),
        description := Merged(data, "description", t.description),
        category := Merged(data, "category", t.category),
        priority := Merged(data, "priority", t.priority),
        status := Merged(data, "status", t.status)))
  }

  /** The serializer-level invariant of a stored ticket, on top of what the table admits. */
  predicate WellFormed(t: Ticket) {
    StorableTicket(t) && !IsBlank(t.title) && !IsBlank(t.description)
  }

  /** A field value the serializer accepts is one the table admits: the two layers agree. */
  lemma AcceptedChoiceMeetsConstraint(field: string, s: string)
    requires field in {"category", "priority", "status"}
    requires Acceptable(field, s)
    ensures field == "category" ==> s in ValidCategoryValues
    ensures field == "priority" ==> s in ValidPriorityValues
    ensures field == "status" ==> s in ValidStatusValues
  {
  }

  /** Fields taken from a create request make a well-formed ticket, whatever id and time the store assigns. */
  lemma CreatedFieldsWellFormed(data: Data, f: TicketFields, id: nat, now: int)
    requires CreatedFrom(data, "title", f.title) && CreatedFrom(data, "description", f.description)
    requires CreatedFrom(data, "category", f.category) && CreatedFrom(data, "priority", f.priority)
    requires CreatedFrom(data, "status", f.status)
    ensures WellFormed(NewTicket(f, id, now))
  {
  }

  /** A valid create request yields a well-formed ticket. */
  lemma CreatedTicketWellFormed(data: Data, id: nat, now: int)
    requires ValidateCreate(data).Success?
    ensures WellFormed(NewTicket(ValidateCreate(data).value, id, now))
  {
    CreatedFieldsWellFormed(data, ValidateCreate(data).value, id, now);
  }

  /** Merging accepted fields into a well-formed ticket keeps it well-formed. */
  lemma UpdatedFieldsWellFormed(t: Ticket, data: Data, u: Ticket)
    requires WellFormed(t)
    requires UpdatedFrom(data, "title", t.title, u.title)
    requires UpdatedFrom(data, "description", t.description, u.description)
    requires UpdatedFrom(data, "category", t.category, u.category)
    requires UpdatedFrom(data, "priority", t.priority, u.priority)
    requires UpdatedFrom(data, "status", t.status, u.status)
    ensures WellFormed(u)
  {
  }

  /** A valid partial update of a well-formed ticket yields a well-formed ticket. */
  lemma UpdatedTicketWellFormed(t: Ticket, data: Data)
    requires WellFormed(t)
    requires PartialUpdate(t, data).Success?
    ensures WellFormed(PartialUpdate(t, data).value)
  {
  }

  /** `fields = '__all__'`: the representation of a ticket, one entry per model field. */
  function Represent(t: Ticket): (r: Data)
    ensures r.Keys == ModelFields
    ensures r["id"] == JInt(t.id) && r["created_at"] == JInt(t.createdAt)
    ensures r["title"] == JString(t.title) && r["description"] == JString(t.description)
    ensures r["category"] == JString(t.category) && r["priority"] == JString(t.priority)
    ensures r["status"] == JString(t.status)
  {
    map[
      "id" := JInt(t.id),
      "title" := JString(t.title),
      "description" := JString(t.description),
      "category" := JString(t.category),
      "priority" := JString(t.priority),
      "status" := JString(t.status),
      "created_at" := JInt(t.createdAt)]
  }

  /** No field is lost in the representation: distinct tickets have distinct representations. */
  lemma RepresentInjective(t1: Ticket, t2: Ticket)
    requires Represent(t1) == Represent(t2)
    ensures t1 == t2
  {
  }

  /** Every writable field of a well-formed ticket is acceptable as it stands. */
  lemma WellFormedFieldsAcceptable(t: Ticket)
    requires WellFormed(t)
    ensures Acceptable("title", t.title) && Acceptable("description", t.description)
    ensures Acceptable("category", t.category) && Acceptable("priority", t.priority)
    ensures Acceptable("status", t.status)
  {
    ChoiceValuesListed();
  }

  /** A well-formed ticket's own representation raises no error as a partial update. */
  lemma RepresentRaisesNoPartialErrors(t: Ticket)
    requires WellFormed(t)
    ensures PartialErrors(Represent(t)) == map[]
  {
    var rep := Represent(t);
    WellFormedFieldsAcceptable(t);
    assert forall f :: f in WritableFields ==> f in rep && rep[f].JString? && Acceptable(f, rep[f].s);
    assert PartialErrors(rep).Keys == {};
  }

  /** A partial update without errors that supplies every writable field as it stands changes nothing. */
  lemma PartialUpdateWithCurrentValues(t: Ticket, data: Data)
    requires PartialErrors(data) == map[]
    requires "title" in data && data["title"] == JString(t.title)
    requires "description" in data && data["description"] == JString(t.description)
    requires "category" in data && data["category"] == JString(t.category)
    requires "priority" in data && data["priority"] == JString(t.priority)
    requires "status" in data && data["status"] == JString(t.status)
    ensures PartialUpdate(t, data) == Success(t)
  {
    var u := PartialUpdate(t, data).value;
    assert u.title == t.title && u.description == t.description && u.category == t.category;
  }

  /** Sending a stored ticket's own representation back as a partial update changes nothing. */
  lemma PatchWithOwnRepresentation(t: Ticket)
    requires WellFormed(t)
    ensures PartialUpdate(t, Represent(t)) == Success(t)
  {
    RepresentRaisesNoPartialErrors(t);
    PartialUpdateWithCurrentValues(t, Represent(t));
  }

  /** Two requests that agree on every writable field. */
  predicate SameWritable(d1: Data, d2: Data) {
    forall f :: f in WritableFields ==> (f in d1 <==> f in d2) && (f in d1 ==> d1[f] == d2[f])
  }

  /** Dropping the read-only keys leaves the writable fields as they were. */
  lemma WithoutReadOnlySameWritable(data: Data)
    ensures SameWritable(data, data - ReadOnlyFields)
  {
  }

  /** Validation of a create request looks at its writable fields only. */
  lemma CreateDependsOnWritableOnly(d1: Data, d2: Data)
    requires SameWritable(d1, d2)
    ensures ValidateCreate(d1) == ValidateCreate(d2)
  {
    assert forall f :: f in WritableFields ==> CreateField(d1, f) == CreateField(d2, f);
    var e1, e2 := CreateErrors(d1), CreateErrors(d2);
    assert e1.Keys == e2.Keys;
    assert e1 == e2;
  }

  /** Client-supplied `id` and `created_at` have no effect on a create. */
  lemma CreateIgnoresReadOnlyFields(data: Data)
    ensures ValidateCreate(data) == ValidateCreate(data - ReadOnlyFields)
  {
    WithoutReadOnlySameWritable(data);
    CreateDependsOnWritableOnly(data, data - ReadOnlyFields);
  }

  /** A partial update looks at the writable fields of the request only. */
  lemma PartialUpdateDependsOnWritableOnly(t: Ticket, d1: Data, d2: Data)
    requires SameWritable(d1, d2)
    ensures PartialUpdate(t, d1) == PartialUpdate(t, d2)
  {
    var e1, e2 := PartialErrors(d1), PartialErrors(d2);
    assert e1.Keys == e2.Keys;
    assert e1 == e2;
  }

  /** Client-supplied `id` and `created_at` have no effect on a partial update. */
  lemma PartialUpdateIgnoresReadOnlyFields(t: Ticket, data: Data)
    ensures PartialUpdate(t, data) == PartialUpdate(t, data - ReadOnlyFields)
  {
    WithoutReadOnlySameWritable(data);
    PartialUpdateDependsOnWritableOnly(t, data, data - ReadOnlyFields);
  }

  /** `__str__` of a created ticket is its title as the model stores it: the supplied text, untrimmed. */
  lemma CreatedTicketPrintsAsTitle(data: Data, id: nat, now: int)
    requires ValidateCreate(data).Success?
    ensures "title" in data && data["title"] == JString(TicketStr(NewTicket(ValidateCreate(data).value, id, now)))
  {
  }

  /** An empty partial update is accepted and changes nothing. */
  lemma EmptyPatchIsIdentity(t: Ticket)
    ensures PartialUpdate(t, map[]) == Success(t)
  {
  }
}
