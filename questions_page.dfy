/**
 * `app/questions/page.tsx`: the category/status filter over the fetched
 * questions and the heading of the empty state.
 */
module QuestionsPage {
  import opened Wrappers
  import opened Types
  import opened Sequences

  /** The page's search parameters `?category=…&status=…`. */
  datatype Params = Params(category: Option<string>, status: Option<string>)

  /** A parameter takes part in filtering when it is present and non-empty (truthy). */
  predicate Given(p: Option<string>) {
    p.Some? && p.value != ""
  }

  /** `question.metadata?.category?.key`. */
  function CategoryKeyOf(q: Question): Option<string> {
    if q.meta.category.Some? then Some(q.meta.category.value.key) else None
  }

  /** `question.metadata?.status?.key`. */
  function StatusKeyOf(q: Question): Option<string> {
    if q.meta.status.Some? then Some(q.meta.status.value.key) else None
  }

  /** The `filter` callback: a given parameter must equal the question's key; a missing key never equals it. */
  predicate Keep(params: Params, q: Question) {
    if Given(params.category) && CategoryKeyOf(q) != Some(params.category.value) then false
    else if Given(params.status) && StatusKeyOf(q) != Some(params.status.value) then false
    else true
  }

  function Keeper(params: Params): Question -> bool {
    q => Keep(params, q)
  }

  /** `filteredQuestions`. */
  function FilteredQuestions(questions: seq<Question>, params: Params): (shown: seq<Question>)
    ensures IsSubsequence(shown, questions)
  {
    FilterIsSubsequence(questions, Keeper(params));
    Filter(questions, Keeper(params))
  }

  /** The category-only filter: questions whose category key is `c`. */
  function InCategory(c: string): Question -> bool {
    q => CategoryKeyOf(q) == Some(c)
  }

  /** The status-only filter: questions whose status key is `s`. */
  function InStatus(s: string): Question -> bool {
    q => StatusKeyOf(q) == Some(s)
  }

  /** Without a category or status parameter every question is shown. */
  lemma NoParamsKeepsAll(questions: seq<Question>, params: Params)
    requires !Given(params.category) && !Given(params.status)
    ensures FilteredQuestions(questions, params) == questions
  {
    FilterAll(questions, Keeper(params));
  }

  /**
   * A question is shown exactly when it was fetched and has the requested
   * category key (when a category is given) and the requested status key
   * (when a status is given); a question without a category is dropped by
   * any category filter.
   */
  lemma ShownExactly(questions: seq<Question>, params: Params, q: Question)
    ensures q in FilteredQuestions(questions, params) <==>
      && q in questions
      && (Given(params.category) ==> q.meta.category.Some? && q.meta.category.value.key == params.category.value)
      && (Given(params.status) ==> q.meta.status.Some? && q.meta.status.value.key == params.status.value)
  {
    FilterMembership(questions, Keeper(params), q);
  }

  /** With both parameters the result is the category filter followed by the status filter, in the original order. */
  lemma BothParamsIntersect(questions: seq<Question>, c: string, s: string)
    requires c != "" && s != ""
    ensures FilteredQuestions(questions, Params(Some(c), Some(s)))
         == Filter(Filter(questions, InCategory(c)), InStatus(s))
  {
    FilterCompose(questions, InCategory(c), InStatus(s), Keeper(Params(Some(c), Some(s))));
  }

  /** The heading of the empty state. */
  function EmptyHeading(params: Params): string {
    if Given(params.category) || Given(params.status) then "No questions found" else "No questions yet"
  }

  /**
   * "No questions yet" is shown only when no filter is active, and then the
   * page is empty only because nothing was fetched; with a filter the heading
   * is always "No questions found".
   */
  lemma EmptyHeadingTruthful(questions: seq<Question>, params: Params)
    ensures EmptyHeading(params) == "No questions yet" <==> !Given(params.category) && !Given(params.status)
    ensures EmptyHeading(params) == "No questions yet" && FilteredQuestions(questions, params) == []
      ==> questions == []
  {
    if !Given(params.category) && !Given(params.status) {
      NoParamsKeepsAll(questions, params);
    }
  }
}
