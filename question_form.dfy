/**
 * `components/QuestionForm.tsx`: the ask-a-question form. Its state (the four
 * inputs, the submitting flag and the error line) is a class; the category
 * lookup and the question record it builds are functions.
 */
module QuestionForm {
  import opened Wrappers
  import opened Types
  import opened Strings
  import opened Sequences
  import QuestionCard
  import QuestionsPage

  /** An entry of the `categories` table: a category key and its label. */
  datatype CategoryEntry = CategoryEntry(key: string, value: string)

  /** `categories`, in the order the select lists them. */
  const Categories: seq<CategoryEntry> := [
    CategoryEntry("general", "General"),
    CategoryEntry("technical", "Technical Support"),
    CategoryEntry("feature", "Feature Request"),
    CategoryEntry("bug", "Bug Report"),
    CategoryEntry("integration", "Integration Help")]

  function HasKey(key: string): CategoryEntry -> bool {
    (e: CategoryEntry) => e.key == key
  }

  /** `categories.find(cat => cat.key === key)?.value || 'General'`. */
  function CategoryLabel(key: string): (name: string)
    ensures name != ""
    ensures forall i :: 0 <= i < |Categories| && Categories[i].key == key ==> name == Categories[i].value
    ensures (forall i :: 0 <= i < |Categories| ==> Categories[i].key != key) ==> name == "General"
  {
    match FindFirst(Categories, HasKey(key))
    case None => "General"
    case Some(i) => Categories[i].value
  }

  /**
   * The form's table covers exactly the five category keys of the content
   * model: a key has its own label iff it parses as a category.
   */
  lemma CategoryTableMatchesEnumeration(key: string)
    ensures ParseCategory(key).Some? <==> exists i :: 0 <= i < |Categories| && Categories[i].key == key
    ensures ParseCategory(key).None? ==> CategoryLabel(key) == "General"
  {
    if ParseCategory(key).Some? {
      var c := ParseCategory(key).value;
      match c
      case General => assert Categories[0].key == key;
      case Technical => assert Categories[1].key == key;
      case Feature => assert Categories[2].key == key;
      case Bug => assert Categories[3].key == key;
      case Integration => assert Categories[4].key == key;
    }
  }

  /** The contents of the four inputs. */
  datatype FormData = FormData(title: string, content: string, tags: string, category: string)

  /** The state the form starts in and returns to after a submission. */
  const Initial: FormData := FormData("", "", "", "general")

  /** The inputs, by their `name` attribute. */
  datatype Field = Title | Content | TagList | CategoryKey

  function FieldValue(d: FormData, f: Field): string {
    match f
    case Title => d.title
    case Content => d.content
    case TagList => d.tags
    case CategoryKey => d.category
  }

  /** `{ ...prev, [name]: value }`. */
  function WithField(d: FormData, f: Field, value: string): (updated: FormData)
    ensures FieldValue(updated, f) == value
    ensures forall g :: g != f ==> FieldValue(updated, g) == FieldValue(d, g)
  {
    match f
    case Title => d.(title := value)
    case Content => d.(content := value)
    case TagList => d.(tags := value)
    case CategoryKey => d.(category := value)
  }

  /** The submit button's enabling condition. */
  predicate SubmitEnabled(isSubmitting: bool, d: FormData) {
    !isSubmitting && Trim(d.title) != "" && Trim(d.content) != ""
  }

  /** The fresh form cannot be submitted, and neither can a form whose title or content is blank. */
  lemma SubmitNeedsTitleAndContent(isSubmitting: bool, d: FormData)
    ensures !SubmitEnabled(isSubmitting, Initial)
    ensures AllWhitespace(d.title) || AllWhitespace(d.content) || isSubmitting ==> !SubmitEnabled(isSubmitting, d)
  {
  }

  /** The question object the form builds (`questionData`). */
  datatype NewQuestion = NewQuestion(title: string, kind: string, status: string, meta: QuestionMeta)

  /** The author every question from this form is attributed to. */
  const DemoAuthor: string := "demo-user-id"

  function NewQuestionRecord(d: FormData): NewQuestion {
    NewQuestion(d.title, "questions", "published", QuestionMeta(
      d.title,
      Some(d.content),
      ById(DemoAuthor),
      Some(d.tags),
      Some(KeyValue(d.category, CategoryLabel(d.category))),
      Some(0),
      Some(KeyValue("open", "Open")),
      Some(false)))
  }

  /**
   * A submitted question, once stored under some header, is shown by the
   * question card as an open, unfeatured question with no views, its
   * category's label and no author block (its author is an id), and its
   * preview is built from the entered content. The questions page lists it
   * under the "open" status and under its category key.
   */
  lemma NewQuestionAsDisplayed(d: FormData, h: Header, showAuthor: Option<bool>)
    ensures var q := Question(h, NewQuestionRecord(d).meta);
      && QuestionCard.Render(q, showAuthor).status == "Open"
      && QuestionCard.Render(q, showAuthor).views == 0
      && !QuestionCard.Render(q, showAuthor).featured
      && QuestionCard.Render(q, showAuthor).author.None?
      && QuestionCard.Render(q, showAuthor).category == CategoryLabel(d.category)
      && QuestionCard.Render(q, showAuthor).preview == QuestionCard.Preview(Some(d.content))
    ensures var q := Question(h, NewQuestionRecord(d).meta);
      && QuestionsPage.Keep(QuestionsPage.Params(None, Some("open")), q)
      && (d.category != "" ==> QuestionsPage.Keep(QuestionsPage.Params(Some(d.category), Some("open")), q))
  {
  }

  /** The message shown when a submission fails. */
  const FailureMessage: string := "Failed to submit question. Please try again."

  class Form {
    var data: FormData
    var isSubmitting: bool
    var error: Option<string>

    constructor()
      ensures data == Initial && !isSubmitting && error.None?
    {
      data := Initial;
      isSubmitting := false;
      error := None;
    }

    /** `handleInputChange`: only the named input changes. */
    method HandleInputChange(f: Field, value: string)
      modifies this
      ensures data == WithField(old(data), f, value)
      ensures isSubmitting == old(isSubmitting) && error == old(error)
    {
      data := WithField(data, f, value);
    }

    /**
     * `handleSubmit`. `fails` says whether the awaited submission rejects.
     * On success the question record is produced and the form is reset; on
     * failure the inputs are kept and the error line is set. Either way the
     * form is no longer submitting afterwards.
     */
    method HandleSubmit(fails: bool) returns (created: Option<NewQuestion>)
      modifies this
      ensures !isSubmitting
      ensures fails ==> created.None? && error == Some(FailureMessage) && data == old(data)
      ensures !fails ==> created == Some(NewQuestionRecord(old(data))) && data == Initial && error.None?
    {
      isSubmitting := true;
      error := None;
      created := None;
      if fails {
        error := Some(FailureMessage);
      } else {
        created := Some(NewQuestionRecord(data));
        data := Initial;
      }
      isSubmitting := false;
    }
  }
}
