/**
 * The ticket submission form: its fields, the description handler that
 * decides when to ask for a classification, the handling of the
 * classification answer, and the submit handler that resets the form on
 * success.  Each handler is one synchronous state transition; the answers
 * of the backend calls are parameters (`None` for a failed call).
 */
module TicketForm {
  import opened Wrappers
  import opened Text
  import opened Models
  import opened Serializers

  const FormCategories: seq<string> := ["billing", "technical", "account", "general"]
  const FormPriorities: seq<string> := ["low", "medium", "high", "critical"]

  /** Classification is requested once the trimmed description is longer than this. */
  const ClassifyThreshold: nat := 20

  const SubmitSuccessMessage := "Ticket submitted successfully!"
  const SubmitErrorMessage := "Failed to submit ticket. Please try again."

  /** The JSON answer of the classify endpoint; either suggestion may be missing. */
  datatype Suggestion = Suggestion(suggestedCategory: Option<string>, suggestedPriority: Option<string>)

  /** JavaScript truthiness of an optional string. */
  predicate Truthy(v: Option<string>) {
    v.Some? && v.value != ""
  }

  /** `val.trim().length > 20`. */
  predicate WantsClassification(description: string) {
    |JsTrim(description)| > ClassifyThreshold
  }

  /** A description of at most 20 characters, or one of whitespace only, is never classified. */
  lemma ShortDescriptionNotClassified(description: string)
    ensures |description| <= ClassifyThreshold ==> !WantsClassification(description)
    ensures AllSpace(description, IsJsSpace) ==> !WantsClassification(description)
  {
  }

  /** The request body `createTicket({ title, description, category, priority })`. */
  function FormPayload(title: string, description: string, category: string, priority: string): (d: Data)
    ensures d.Keys == {"title", "description", "category", "priority"}
    ensures d["title"] == JString(title) && d["description"] == JString(description)
    ensures d["category"] == JString(category) && d["priority"] == JString(priority)
  {
    map["title" := JString(title), "description" := JString(description),
        "category" := JString(category), "priority" := JString(priority)]
  }

  /** The form never sends a status, so a ticket it creates starts open, with the form's choices. */
  lemma PayloadCreatesOpenTicket(title: string, description: string, category: string, priority: string)
    requires ValidateCreate(FormPayload(title, description, category, priority)).Success?
    ensures var f := ValidateCreate(FormPayload(title, description, category, priority)).value;
      f.status == "open" && f.title == title && f.description == description
      && f.category == category && f.priority == priority
  {
  }

  /** A form whose choices come from its option lists is accepted exactly when title and description are. */
  lemma PayloadAcceptedIff(title: string, description: string, category: string, priority: string)
    requires category in FormCategories && priority in FormPriorities
    ensures ValidateCreate(FormPayload(title, description, category, priority)).Success? <==>
      |title| <= TitleMaxLength && !IsBlank(title) && !IsBlank(description)
  {
    var d := FormPayload(title, description, category, priority);
    CreateAcceptedIffEveryField(d);
    PayloadFieldsAccepted(title, description, category, priority);
  }

  /** Field by field acceptance of a form payload. */
  lemma PayloadFieldsAccepted(title: string, description: string, category: string, priority: string)
    requires category in FormCategories && priority in FormPriorities
    ensures var d := FormPayload(title, description, category, priority);
      (forall f :: f in WritableFields ==> CreateField(d, f).Success?) <==>
      |title| <= TitleMaxLength && !IsBlank(title) && !IsBlank(description)
  {
    FormOptionsAreModelChoices();
    var d := FormPayload(title, description, category, priority);
    EveryFieldAcceptedByName(d);
    CreateFieldOfText(d, "title", title);
    CreateFieldOfText(d, "description", description);
    CreateFieldOfText(d, "category", category);
    CreateFieldOfText(d, "priority", priority);
    assert CreateField(d, "status").Success?;
  }

  /** The form's option lists are the model's choices lists. */
  lemma FormOptionsAreModelChoices()
    ensures FormCategories == ChoiceValues(CategoryChoices)
    ensures FormPriorities == ChoiceValues(PriorityChoices)
  {
  }

  class TicketFormState {
    var title: string
    var description: string
    var category: string
    var priority: string
    var classifying: bool
    var classified: bool
    var submitting: bool
    var error: string
    var success: string

    /** The initial state: empty texts, the model's default category and priority, nothing classified. */
    constructor ()
      ensures title == "" && description == ""
      ensures category == DefaultCategory.Value() && priority == DefaultPriority.Value()
      ensures !classifying && !classified && !submitting
      ensures error == "" && success == ""
    {
      title, description := "", "";
      category, priority := "general", "medium";
      classifying, classified, submitting := false, false, false;
      error, success := "", "";
    }

    /** The title input; its `maxLength` keeps the text within the column limit. */
    method SetTitle(value: string)
      requires |value| <= TitleMaxLength
      modifies this`title
      ensures title == value
    {
      title := value;
    }

    /** The category select: one of its options. */
    method SetCategory(value: string)
      requires value in FormCategories
      modifies this`category
      ensures category == value
    {
      category := value;
    }

    /** The priority select: one of its options. */
    method SetPriority(value: string)
      requires value in FormPriorities
      modifies this`priority
      ensures priority == value
    {
      priority := value;
    }

    /**
     * `handleDescriptionChange`: store the text, drop the "AI suggested"
     * mark, and report whether a classification request is scheduled.
     */
    method HandleDescriptionChange(value: string) returns (requestClassification: bool)
      modifies this`description, this`classified
      ensures description == value && !classified
      ensures requestClassification <==> WantsClassification(value)
    {
      description := value;
      classified := false;
      requestClassification := |JsTrim(value)| > ClassifyThreshold;
    }

    /**
     * The scheduled classification call has answered.  A non-null answer
     * with both suggestions sets category and priority and marks the form
     * classified; anything else leaves them as they were.
     */
    method HandleClassification(answer: Option<Suggestion>)
      modifies this`category, this`priority, this`classified, this`classifying
      ensures !classifying
      ensures var applied := answer.Some? && Truthy(answer.value.suggestedCategory) && Truthy(answer.value.suggestedPriority);
        if applied then
          category == answer.value.suggestedCategory.value && priority == answer.value.suggestedPriority.value && classified
        else
          category == old(category) && priority == old(priority) && classified == old(classified)
    {
      classifying := true;
      if answer.Some? && Truthy(answer.value.suggestedCategory) && Truthy(answer.value.suggestedPriority) {
        category := answer.value.suggestedCategory.value;
        priority := answer.value.suggestedPriority.value;
        classified := true;
      }
      classifying := false;
    }

    /**
     * `handleSubmit`: clear both messages, send the form; on success show
     * the success message, reset the fields to their initial values and hand
     * the created ticket on; on failure show the error and keep every field.
     */
    method HandleSubmit(create: Data -> Option<Ticket>) returns (created: Option<Ticket>)
      modifies this
      ensures created == create(FormPayload(old(title), old(description), old(category), old(priority)))
      ensures !submitting && classifying == old(classifying)
      ensures created.Some? ==>
        && success == SubmitSuccessMessage && error == ""
        && title == "" && description == ""
        && category == DefaultCategory.Value() && priority == DefaultPriority.Value()
        && !classified
      ensures created.None? ==>
        && error == SubmitErrorMessage && success == ""
        && title == old(title) && description == old(description)
        && category == old(category) && priority == old(priority)
        && classified == old(classified)
    {
      error, success := "", "";
      submitting := true;
      created := create(FormPayload(title, description, category, priority));
      if created.Some? {
        success := SubmitSuccessMessage;
        title, description := "", "";
        category, priority := "general", "medium";
        classified := false;
      } else {
        error := SubmitErrorMessage;
      }
      submitting := false;
    }
  }
}
