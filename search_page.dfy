/**
 * `app/search/page.tsx`: the `q` parameter, the decision to search at all,
 * the result summary and the choice between the three views.
 */
module SearchPage {
  import opened Wrappers
  import opened Types
  import opened Strings
  import opened Api

  /** `params.q || ''`. */
  function QueryOf(q: Option<string>): (query: string)
    ensures q.None? ==> query == ""
    ensures q.Some? ==> query == q.value
  {
    if q.Some? && q.value != "" then q.value else ""
  }

  /** `query ? await searchQuestions(query) : []`: the empty query never reaches the data layer. */
  function Results(find: Query -> Remote<seq<Question>>, query: string): (questions: seq<Question>)
    ensures query == "" ==> questions == []
    ensures query != "" ==> questions == SearchQuestions(find, query)
  {
    if query != "" then SearchQuestions(find, query) else []
  }

  /** "result", with a trailing "s" unless there is exactly one. */
  function ResultNoun(n: nat): (noun: string)
    ensures noun == "result" || noun == "results"
    ensures noun == "results" <==> n != 1
  {
    "result" + (if n != 1 then "s" else "")
  }

  /** The summary line above the results, shown only for a non-empty query. */
  function Summary(query: string, n: nat): (line: Option<string>)
    ensures line.None? <==> query == ""
    ensures line.Some? && n > 0 ==> line.value == "Found " + NatToString(n) + " " + ResultNoun(n) + " for \"" + query + "\""
    ensures line.Some? && n == 0 ==> line.value == "No results found for \"" + query + "\""
  {
    if query == "" then None
    else if n > 0 then Some("Found " + NatToString(n) + " " + ResultNoun(n) + " for \"" + query + "\"")
    else Some("No results found for \"" + query + "\"")
  }

  datatype View = ResultList | NoResultsCard | SearchPrompt

  /** Exactly one view: the list when there are results, else the no-results card for a query, else the prompt. */
  function ViewOf(query: string, n: nat): (v: View)
    ensures v == ResultList <==> n > 0
    ensures v == NoResultsCard <==> n == 0 && query != ""
    ensures v == SearchPrompt <==> n == 0 && query == ""
  {
    if n > 0 then ResultList else if query != "" then NoResultsCard else SearchPrompt
  }

  /** The search prompt appears exactly when `q` is absent or empty, whatever the CMS holds. */
  lemma PromptIffNoQuery(find: Query -> Remote<seq<Question>>, q: Option<string>)
    ensures ViewOf(QueryOf(q), |Results(find, QueryOf(q))|) == SearchPrompt <==> QueryOf(q) == ""
    ensures QueryOf(q) == "" ==> Summary(QueryOf(q), |Results(find, QueryOf(q))|).None?
  {
  }
}
