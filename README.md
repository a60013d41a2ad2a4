# Support-ticket system: a Dafny model of its ticket core

This project models the ticket core of a support-ticket tracker with a
Django REST backend and a React frontend:

- the `Ticket` model: three closed enumerations (category, priority and
  status) with their choices lists and defaults, the 200-character title
  and 20-character choice columns, the storage-level check constraints,
  the newest-first ordering, and the string form of a ticket
  (`models.dfy`, module `Models`);
- the `TicketSerializer`: the custom title and description validators,
  choice validation, read-only `id` and `created_at`, full validation for
  create, partial validation and merging for PATCH, and the
  representation with every model field (`serializers.dfy`, module
  `Serializers`);
- the two views over the ticket table: list (newest first, query
  parameters ignored), create, retrieve and partial update, where an
  unknown id gives "Not found". This is a class holding the rows as a
  sequence (`views.dfy`, module `Views`, class `TicketStore`);
- the ticket list screen: `truncate`, `nextStatus` over `STATUS_FLOW`, the
  query parameters built from the filters, and the id-keyed replacement
  after a status change (`ticket_list.dfy`, module `TicketList`);
- the submission form as a state machine: its fields, the description
  handler and the rule for requesting a classification, the handling of
  the classification answer, and the submit handler
  (`ticket_form.dfy`, module `TicketForm`).

`text.dfy` (module `Text`) defines the whitespace that Python's
`str.strip()` and JavaScript's `trim()` remove. The two sets differ.
`wrappers.dfy` holds `Option` and `Result`.

Some inputs are parameters of the model:

- the clock reading behind `auto_now_add` is the `now` argument of
  `TicketStore.Create`;
- primary keys come from a counter, `nextId`;
- every frontend call to the backend is a function parameter whose answer
  is `None` when the call fails (`fetch` in `LoadTickets`, `update` in
  `HandleStatusChange`, `create` in `HandleSubmit`), or the answer itself
  (`HandleClassification`).

Request and response bodies are JSON objects, `map<string, Json>`.

The list view does no filtering or search: `views.py:11` returns
`Ticket.objects.all()` whatever the query string holds, though the
frontend still sends filter parameters (`BuildParams`). A status outside
`STATUS_FLOW` is advanced to "open" by the frontend.

## Model

Six functions only encode source data and carry no promise of their own;
the lemmas named here state what each means:
- `Models.ChoiceValues`, the value column of a choices list, is covered by
  `Models.ChoiceValuesListed` and `Models.ConstraintsMatchChoices`.
- `Serializers.CreateErrors`, the error map of a create, is covered by
  `Serializers.CreateAcceptedIffEveryField` and
  `Serializers.CreateDependsOnWritableOnly`.
- `Serializers.NewTicket`, the row a create saves, is covered by
  `Serializers.CreatedTicketWellFormed` and `Views.TicketStore.Create`.
- `Serializers.PartialErrors`, the error map of a PATCH, is covered by
  `Serializers.PartialUpdate`.
- `Serializers.Represent`, a ticket's JSON object, is covered by
  `Serializers.RepresentInjective` and
  `Serializers.PatchWithOwnRepresentation`.
- `TicketForm.FormPayload`, the form's request body, is covered by
  `TicketForm.PayloadCreatesOpenTicket`.

| member | source | states |
|---|---|---|
| Text.StripLeft | backend/tickets/serializers.py:12 | the result is the suffix of the text left after removing leading whitespace; it is empty or starts with a non-space |
| Text.StripRight | frontend/src/components/TicketForm.js:26 | the result is the prefix of the text left after removing trailing whitespace; it is empty or ends with a non-space |
| Text.StripEmptyIffAllSpace | backend/tickets/serializers.py:12 | `not value.strip()` holds exactly when every character is whitespace (used for both `strip()` and `trim()`) |
| Text.StripIsSlice | frontend/src/components/TicketForm.js:26 | the stripped text is a contiguous slice of the original |
| Text.StripHasNoOuterSpace | frontend/src/components/TicketForm.js:26 | a non-empty stripped text begins and ends with a non-space |
| Text.StripShortens | frontend/src/components/TicketForm.js:26 | stripping never lengthens a text |
| Models.ChoiceValuesListed | backend/tickets/models.py:5-24 | the stored values are billing/technical/account/general, low/medium/high/critical and open/in_progress/resolved/closed |
| Models.ParseCategory | backend/tickets/models.py:5-10 | a text names a category exactly when it is in the category choices, and it names the category whose value it is |
| Models.ParsePriority | backend/tickets/models.py:12-17 | a text names a priority exactly when it is in the priority choices, and it names the priority whose value it is |
| Models.ParseStatus | backend/tickets/models.py:19-24 | a text names a status exactly when it is in the status choices, and it names the status whose value it is |
| Models.EnumerationsRoundTrip | backend/tickets/models.py:5-24 | every enumeration value is in its choices list and parses back to itself |
| Models.DefaultsAreChoices | backend/tickets/models.py:28-30 | the defaults are general, medium and open, each a member of its choices list |
| Models.ChoiceValuesFitColumns | backend/tickets/models.py:28-30 | every choice value fits a 20-character column |
| Models.ConstraintsMatchChoices | backend/tickets/models.py:35-48 | each check constraint admits exactly the values of the matching choices list |
| Models.ConstraintsIffEnumerations | backend/tickets/models.py:35-48 | a row meets the three check constraints exactly when its category, priority and status parse as enumeration values |
| Models.ConstraintsImplyColumnFit | backend/tickets/models.py:28-30 | a row that meets the check constraints also fits the 20-character columns |
| Models.ConsNewestFirst | backend/tickets/models.py:34 | a ticket no older than the head, put in front of a newest-first sequence, keeps it newest first |
| Models.InsertByCreatedDesc | backend/tickets/models.py:34 | inserting into a newest-first sequence gives a newest-first sequence with exactly one more ticket |
| Models.OrderByCreatedDesc | backend/tickets/models.py:34 | ordering by `-created_at` gives a newest-first permutation of the input |
| Models.OrderByCreatedDescSameTickets | backend/tickets/models.py:34 | the ordered sequence has the same length and the same tickets as the input |
| Models.OrderByCreatedDescKeepsSorted | backend/tickets/models.py:34 | a sequence already newest first, with distinct creation times, is returned unchanged |
| Serializers.ValidateTitle | backend/tickets/serializers.py:11-14 | rejected with "Title is required." exactly when the title is empty or whitespace only; an accepted title is returned untrimmed |
| Serializers.ValidateDescription | backend/tickets/serializers.py:16-19 | rejected with "Description is required." exactly when the description is empty or whitespace only; otherwise returned unchanged |
| Serializers.ValidateField | backend/tickets/models.py:26-30 | a supplied value is accepted exactly when it is text the field admits: a title of at most 200 characters that is not blank, a description that is not blank, or a member of the choices list. The text is kept unchanged. Null, overlong, blank and non-choice values each get their own error |
| Serializers.ValidateCreate | backend/tickets/views.py:16-17 | a create is accepted exactly when the error map is empty. Title and description must be supplied. Each stored value is the supplied text, or the model default for an absent choice field |
| Serializers.CreateFieldOfText | backend/tickets/models.py:26-30 | a writable field supplied as text is accepted on create exactly when the field admits that text |
| Serializers.CreateAcceptedIffEveryField | backend/tickets/views.py:17 | a create is accepted exactly when each writable field is |
| Serializers.EveryFieldAcceptedByName | backend/tickets/serializers.py:8-9 | "every writable field is accepted" means title, description, category, priority and status are each accepted |
| Serializers.PartialUpdate | backend/tickets/views.py:35-38 | a valid partial update replaces only the supplied fields with the supplied text. id, created_at and the fields not supplied stay as they were. Any invalid field rejects the whole update |
| Serializers.AcceptedChoiceMeetsConstraint | backend/tickets/models.py:35-48 | any choice value the serializer accepts is one the check constraint admits |
| Serializers.CreatedFieldsWellFormed | backend/tickets/serializers.py:11-19 | fields taken from a valid create make a row that meets the column limits, the check constraints and both validators |
| Serializers.CreatedTicketWellFormed | backend/tickets/views.py:17-18 | whatever id and time the store assigns, a valid create yields a well-formed row |
| Serializers.UpdatedFieldsWellFormed | backend/tickets/serializers.py:11-19 | merging accepted fields into a well-formed row keeps it well-formed |
| Serializers.UpdatedTicketWellFormed | backend/tickets/views.py:36-37 | a valid partial update of a well-formed row yields a well-formed row |
| Serializers.RepresentInjective | backend/tickets/serializers.py:8 | different tickets have different representations, so no field is lost |
| Serializers.WellFormedFieldsAcceptable | backend/tickets/serializers.py:11-19 | every writable field of a well-formed row is acceptable as it stands |
| Serializers.RepresentRaisesNoPartialErrors | backend/tickets/serializers.py:8-9 | a well-formed row's own representation raises no field error when sent back as a PATCH |
| Serializers.PartialUpdateWithCurrentValues | backend/tickets/views.py:35-38 | an error-free PATCH that supplies every writable field with its current value leaves the ticket as it was |
| Serializers.PatchWithOwnRepresentation | backend/tickets/serializers.py:8-9 | sending a row's own representation back as a PATCH is accepted and changes nothing. The id and created_at in it are ignored |
| Serializers.WithoutReadOnlySameWritable | backend/tickets/serializers.py:9 | removing id and created_at from a request leaves its writable fields as they were |
| Serializers.CreateDependsOnWritableOnly | backend/tickets/serializers.py:7-9 | create validation depends only on the writable fields of the request |
| Serializers.CreateIgnoresReadOnlyFields | backend/tickets/serializers.py:9 | a client-supplied id or created_at has no effect on a create |
| Serializers.PartialUpdateDependsOnWritableOnly | backend/tickets/serializers.py:7-9 | a partial update depends only on the writable fields of the request |
| Serializers.PartialUpdateIgnoresReadOnlyFields | backend/tickets/serializers.py:9 | a client-supplied id or created_at has no effect on a partial update |
| Serializers.CreatedTicketPrintsAsTitle | backend/tickets/models.py:50-51 | the string form of a created ticket is its title as the model stores it: the supplied text, untrimmed (see Left out) |
| Serializers.EmptyPatchIsIdentity | backend/tickets/views.py:35-38 | an empty PATCH is accepted and changes nothing |
| Views.FindById | backend/tickets/views.py:25-28 | the lookup finds a row with that primary key, and finds none exactly when no row has it |
| Views.FindByIdUnique | backend/tickets/views.py:25 | with unique ids, the lookup finds the one row carrying the id |
| Views.AppendKeepsTableValid | backend/tickets/views.py:18 | appending a well-formed row under the next id keeps ids unique and every row well-formed |
| Views.ReplaceKeepsTableValid | backend/tickets/views.py:37 | replacing a row by a well-formed one with the same id keeps the table valid |
| Views.TicketStore.constructor | backend/tickets/models.py:4 | the table starts empty and valid |
| Views.TicketStore.List | backend/tickets/views.py:10-13 | GET answers 200 with every row, newest first, as a permutation of the table. The query parameters play no part, and nothing changes |
| Views.TicketStore.Create | backend/tickets/views.py:15-20 | a valid POST appends exactly one row with a fresh id and answers 201 with it. An invalid POST answers 400 with the error map and leaves the table as it was. The table stays valid |
| Views.TicketStore.Retrieve | backend/tickets/views.py:24-32 | an unknown id answers 404 with `{error: "Not found"}`. Otherwise the answer is 200 with the row that has that id. Nothing changes |
| Views.TicketStore.Update | backend/tickets/views.py:24-39 | an unknown id answers 404 and changes nothing, and an invalid PATCH answers 400 and changes nothing. A valid PATCH replaces that one row by the merged ticket. No row's id or created_at changes, and the table stays valid |
| TicketList.Truncate | frontend/src/components/TicketList.js:23-25 | a text of at most n characters is unchanged; a longer one becomes its first n characters then "...", n + 3 in all |
| TicketList.TruncateDefault | frontend/src/components/TicketList.js:23 | with the default length 120: a text of at most 120 characters is unchanged; a longer one becomes its first 120 characters then "...", 123 in all |
| TicketList.TruncateBounds | frontend/src/components/TicketList.js:24 | the result keeps a prefix of the text and has at most n + 3 characters |
| TicketList.TruncateIdempotent | frontend/src/components/TicketList.js:23-25 | truncating a truncated text changes nothing |
| TicketList.IndexOf | frontend/src/components/TicketList.js:78 | `indexOf` gives the first position of the value, or -1 exactly when it is absent |
| TicketList.NextStatus | frontend/src/components/TicketList.js:77-80 | null exactly for "closed"; an unknown status gives "open"; otherwise the next entry of the flow |
| TicketList.StatusFlowIsStatusChoices | frontend/src/components/TicketList.js:7 | `STATUS_FLOW` is the model's status choice list, in order |
| TicketList.NextStatusTable | frontend/src/components/TicketList.js:77-80 | open goes to in_progress, in_progress to resolved, resolved to closed, closed to null, and an unknown status to open |
| TicketList.NextStatusIsValidChoice | frontend/src/components/TicketList.js:141 | the status the advance button sends is always accepted by the backend's status validation |
| TicketList.AdvancingTerminates | frontend/src/components/TicketList.js:77-80 | pressing the advance button repeatedly from any status reaches an end after at most five steps |
| TicketList.AdvanceButtonUnlessClosed | frontend/src/components/TicketList.js:137 | the advance button is shown for every status except "closed" |
| TicketList.BuildParams | frontend/src/components/TicketList.js:37-41 | the parameters hold a filter key exactly when that filter is non-empty, with its value unchanged, and hold no other key |
| TicketList.ReplaceById | frontend/src/components/TicketList.js:71 | the list keeps its length and order; each entry with the updated id becomes the updated ticket, the others stay |
| TicketList.ReplaceByIdAt | frontend/src/components/TicketList.js:71 | with unique ids, exactly the one entry with the id is replaced and ids stay unique |
| TicketList.ReplaceByIdAbsent | frontend/src/components/TicketList.js:71 | when no entry has the id, the list is unchanged |
| TicketList.TicketListState.constructor | frontend/src/components/TicketList.js:28-31 | the screen starts with no tickets, loading, all four filters empty and an empty search box |
| TicketList.TicketListState.LoadTickets | frontend/src/components/TicketList.js:34-49 | the fetch uses the parameters of the current filters: a filter key exactly when that filter is non-empty, with its value, and no other key. On success the list becomes the answer; on failure it is kept. Loading ends |
| TicketList.TicketListState.HandleFilterChange | frontend/src/components/TicketList.js:55-57 | only the given filter key takes the new value |
| TicketList.TicketListState.HandleSearchChange | frontend/src/components/TicketList.js:59-66 | the search box and the search filter take the typed value |
| TicketList.TicketListState.HandleStatusChange | frontend/src/components/TicketList.js:68-75 | the PATCH sends only the new status for the ticket's id. An answer replaces the entry with its id; a failure leaves the list unchanged |
| TicketForm.ShortDescriptionNotClassified | frontend/src/components/TicketForm.js:26 | a description of at most 20 characters, or one of whitespace only, never triggers classification |
| TicketForm.PayloadCreatesOpenTicket | frontend/src/components/TicketForm.js:51 | the form sends no status, so a ticket it creates starts open, with the form's own title, description, category and priority |
| TicketForm.PayloadAcceptedIff | frontend/src/components/TicketForm.js:51 | with category and priority chosen from the selects, the backend accepts the form exactly when the title is a non-blank text of at most 200 characters and the description is non-blank |
| TicketForm.PayloadFieldsAccepted | frontend/src/components/TicketForm.js:51 | the field-by-field version of the claim above |
| TicketForm.FormOptionsAreModelChoices | frontend/src/components/TicketForm.js:4-5 | the form's option lists are the model's category and priority choices |
| TicketForm.TicketFormState.constructor | frontend/src/components/TicketForm.js:8-16 | the form starts with empty texts, category general, priority medium, not classified and no messages |
| TicketForm.TicketFormState.SetTitle | frontend/src/components/TicketForm.js:75-76 | the title takes the typed text, which the input keeps to 200 characters |
| TicketForm.TicketFormState.SetCategory | frontend/src/components/TicketForm.js:98 | the category takes the selected option |
| TicketForm.TicketFormState.SetPriority | frontend/src/components/TicketForm.js:107 | the priority takes the selected option |
| TicketForm.TicketFormState.HandleDescriptionChange | frontend/src/components/TicketForm.js:18-26 | the new text is stored and classified becomes false. Classification is requested exactly when the trimmed text is longer than 20 characters |
| TicketForm.TicketFormState.HandleClassification | frontend/src/components/TicketForm.js:28-40 | a non-null answer with both suggestions sets category and priority and marks the form classified. Any other answer leaves all three unchanged. Classifying ends |
| TicketForm.TicketFormState.HandleSubmit | frontend/src/components/TicketForm.js:45-63 | the form as it was is sent and both messages are cleared. Success shows the success message and resets title, description, category, priority and classified. Failure shows the error and keeps every field |

## Left out

- Stats aggregation and AI classification: `urls.py` routes to `ticket_stats` and `classify_ticket`, but neither is defined in `views.py`, so no backend classification or statistics are modelled. The frontend's handling of a classification answer is modelled.
- Server-side filtering and search: `views.py` has none, so none is modelled.
- The migration file: it repeats the model's field and constraint declarations.
- Persistence: the database engine, transactions and `serializer.save()`. The table is a sequence; the auto-increment key is a counter and the `auto_now_add` clock is a parameter.
- Django REST framework preprocessing: the model applies `validate_title` and `validate_description` straight to the supplied text. DRF first trims CharField input and rejects blank input with its own message, and that step is not modelled. Numbers sent for a text field are rejected as `NotAString` rather than converted with `str()`. Error messages are error kinds, not DRF's wording, except for the two custom messages. DRF also rejects text containing a NUL character ("Null characters are not allowed."), which the model accepts.
- Serializers.ValidateCreate: a missing title or description gives the `Required` error (DRF's required field), not "Title is required."; a null value gives `MayNotBeNull`. DRF rejects both before `validate_title` runs. For empty or whitespace-only text, DRF's CharField blank check ("This field may not be blank.") also runs before the custom validators. So through the real serializer "Title is required." and "Description is required." are never produced. The model, which leaves the blank check out, gives them for blank text.
- JSON rendering: response bodies carry the ticket value itself, and `Serializers.Represent` is its JSON object. The ISO-8601 text of `created_at` is a number here.
- Views.TicketStore.List: the contract fixes the answer to `OrderByCreatedDesc` of the table, a stable sort that keeps rows with equal `created_at` in table order. The database may return tied rows in any order. The model captures only the table-order choice.
- String lengths count Unicode scalar values. JavaScript's `length` counts UTF-16 code units, so `truncate` and the 20-character threshold differ for characters outside the Basic Multilingual Plane.
- Asynchrony: the debounce timers (400 ms search, 800 ms classification), the `classifying` and `submitting` flags while a request is in flight, and the ordering of overlapping requests. Each handler is one synchronous transition; a classification answer that arrives after the description changed again is not modelled.
- UI-only code: tab switching in `App.js`, the statistics dashboard with its floating-point bar widths, colour maps, labels and JSX markup. `frontend/src/api.js` is HTTP plumbing, and `settings.py` and `urls.py` are configuration and routing.
