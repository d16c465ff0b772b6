/**
 * `lib/api.ts`: one getter per (entity, query) pair, each issuing one CMS
 * query and mapping every failure to `[]` or `null`, plus the client-side
 * `searchQuestions` filter.
 *
 * The CMS is a function parameter: `find` answers a multi-object query with
 * the objects or a thrown error, `findOne` a single-object query. `Run` below
 * is a reference semantics for the query filters and limits (sorting is the
 * server's business: the store's order stands for the order the server sorts
 * into), used to state what the filtered getters return from a given store.
 */
module Api {
  import opened Wrappers
  import opened Js
  import opened Types
  import opened Cosmic
  import opened Sequences
  import opened Strings

  /** A sort key, `'-field'` being `Descending(field)`. */
  datatype Order = Ascending(field: string) | Descending(field: string)

  /**
   * One SDK call: the exact-match filter object passed to `find`/`findOne`
   * (including its `type`), the `.props` projection, `.depth`, `.sort` and
   * `.limit`; `None` where the call is not made.
   */
  datatype Query = Query(
    where: map<string, Value>,
    props: seq<string>,
    depth: Option<nat>,
    sort: Option<Order>,
    limit: Option<nat>)

  /** The outcome of one awaited SDK call. */
  datatype Remote<T> = Returned(value: T) | Threw(error: Value)

  /**
   * The `try`/`catch` shared by every list getter: the objects on success; on a
   * 404 `[]`, and on any other failure, after logging, `[]` as well.
   */
  function ListOrEmpty<T>(r: Remote<seq<T>>): (objects: seq<T>)
    ensures r.Returned? ==> objects == r.value
    ensures r.Threw? ==> objects == []
  {
    match r
    case Returned(objects) => objects
    case Threw(e) => if IsNotFound(e) then [] else []
  }

  /** The same policy for the single-object getters, with `null` as the fallback. */
  function OneOrNull<T>(r: Remote<T>): (found: Option<T>)
    ensures r.Returned? ==> found == Some(r.value)
    ensures r.Threw? ==> found == None
  {
    match r
    case Returned(o) => Some(o)
    case Threw(e) => if IsNotFound(e) then None else None
  }

  /** No failure escapes a getter, and the 404 check does not change the fallback. */
  lemma FailuresAreSwallowed<T>(e: Value)
    ensures ListOrEmpty<T>(Threw(e)) == []
    ensures OneOrNull<T>(Threw(e)) == None
    ensures ListOrEmpty<T>(Threw(e)) == ListOrEmpty<T>(Threw(Object(map["status" := Num(404)])))
  {
  }

  const UserProps: seq<string> := ["id", "title", "slug", "metadata"]
  const DatedProps: seq<string> := ["id", "title", "slug", "metadata", "created_at"]

  // ---------------------------------------------------------------- the queries

  function UsersQuery(): Query {
    Query(map["type" := Str("users")], UserProps, None, Some(Descending("metadata.reputation_score")), None)
  }

  function UserBySlugQuery(slug: string): Query {
    Query(map["type" := Str("users"), "slug" := Str(slug)], UserProps, None, None, None)
  }

  function QuestionsQuery(): Query {
    Query(map["type" := Str("questions")], DatedProps, Some(1), Some(Descending("created_at")), None)
  }

  function QuestionBySlugQuery(slug: string): Query {
    Query(map["type" := Str("questions"), "slug" := Str(slug)], DatedProps, Some(2), None, None)
  }

  function FeaturedQuestionsQuery(): Query {
    Query(map["type" := Str("questions"), "metadata.is_featured" := Bool(true)], DatedProps, Some(1), None, Some(5))
  }

  function AnswersQuery(questionId: string): Query {
    Query(map["type" := Str("answers"), "metadata.question" := Str(questionId)], DatedProps, Some(1),
      Some(Descending("metadata.helpful_count")), None)
  }

  function BadgesQuery(): Query {
    Query(map["type" := Str("badges")], UserProps, None, Some(Ascending("metadata.badge_type")), None)
  }

  function UserBadgesQuery(userId: string): Query {
    Query(map["type" := Str("user-badges"), "metadata.user" := Str(userId)], UserProps, Some(1),
      Some(Descending("metadata.earned_date")), None)
  }

  /** What the filtered queries ask for: their kind, their one field filter, and the featured limit of 5. */
  lemma QueryShapes(questionId: string, userId: string)
    ensures FeaturedQuestionsQuery().where.Keys == {"type", "metadata.is_featured"}
    ensures FeaturedQuestionsQuery().where["metadata.is_featured"] == Bool(true)
    ensures FeaturedQuestionsQuery().limit == Some(5)
    ensures AnswersQuery(questionId).where.Keys == {"type", "metadata.question"}
    ensures AnswersQuery(questionId).where["metadata.question"] == Str(questionId)
    ensures UserBadgesQuery(userId).where.Keys == {"type", "metadata.user"}
    ensures UserBadgesQuery(userId).where["metadata.user"] == Str(userId)
  {
  }

  // ---------------------------------------------------------------- the getters

  function GetUsers(find: Query -> Remote<seq<User>>): (users: seq<User>)
    ensures find(UsersQuery()).Threw? ==> users == []
    ensures find(UsersQuery()).Returned? ==> users == find(UsersQuery()).value
  {
    ListOrEmpty(find(UsersQuery()))
  }

  function GetUserBySlug(findOne: Query -> Remote<User>, slug: string): (user: Option<User>)
    ensures findOne(UserBySlugQuery(slug)).Threw? ==> user == None
    ensures findOne(UserBySlugQuery(slug)).Returned? ==> user == Some(findOne(UserBySlugQuery(slug)).value)
  {
    OneOrNull(findOne(UserBySlugQuery(slug)))
  }

  function GetQuestions(find: Query -> Remote<seq<Question>>): (questions: seq<Question>)
    ensures find(QuestionsQuery()).Threw? ==> questions == []
    ensures find(QuestionsQuery()).Returned? ==> questions == find(QuestionsQuery()).value
  {
    ListOrEmpty(find(QuestionsQuery()))
  }

  function GetQuestionBySlug(findOne: Query -> Remote<Question>, slug: string): (question: Option<Question>)
    ensures findOne(QuestionBySlugQuery(slug)).Threw? ==> question == None
    ensures findOne(QuestionBySlugQuery(slug)).Returned? ==> question == Some(findOne(QuestionBySlugQuery(slug)).value)
  {
    OneOrNull(findOne(QuestionBySlugQuery(slug)))
  }

  function GetFeaturedQuestions(find: Query -> Remote<seq<Question>>): (questions: seq<Question>)
    ensures find(FeaturedQuestionsQuery()).Threw? ==> questions == []
    ensures find(FeaturedQuestionsQuery()).Returned? ==> questions == find(FeaturedQuestionsQuery()).value
  {
    ListOrEmpty(find(FeaturedQuestionsQuery()))
  }

  function GetAnswersByQuestionId(find: Query -> Remote<seq<Answer>>, questionId: string): (answers: seq<Answer>)
    ensures find(AnswersQuery(questionId)).Threw? ==> answers == []
    ensures find(AnswersQuery(questionId)).Returned? ==> answers == find(AnswersQuery(questionId)).value
  {
    ListOrEmpty(find(AnswersQuery(questionId)))
  }

  function GetBadges(find: Query -> Remote<seq<Badge>>): (badges: seq<Badge>)
    ensures find(BadgesQuery()).Threw? ==> badges == []
    ensures find(BadgesQuery()).Returned? ==> badges == find(BadgesQuery()).value
  {
    ListOrEmpty(find(BadgesQuery()))
  }

  function GetUserBadges(find: Query -> Remote<seq<UserBadge>>, userId: string): (userBadges: seq<UserBadge>)
    ensures find(UserBadgesQuery(userId)).Threw? ==> userBadges == []
    ensures find(UserBadgesQuery(userId)).Returned? ==> userBadges == find(UserBadgesQuery(userId)).value
  {
    ListOrEmpty(find(UserBadgesQuery(userId)))
  }

  // ---------------------------------------------------------------- search

  /** The text a question is searched in: title, content and tags, blank-separated, lower-cased. */
  function SearchText(q: Question): string {
    ToLower(q.header.title + " " + q.meta.content.GetOr("") + " " + q.meta.tags.GetOr(""))
  }

  /** The `filter` callback of `searchQuestions`. */
  predicate MatchesSearch(q: Question, query: string) {
    Contains(SearchText(q), ToLower(query))
  }

  /** The filter callback as a value, so that every use of it is the same function. */
  function Matcher(query: string): Question -> bool {
    q => MatchesSearch(q, query)
  }

  /** `searchQuestions(query)`: fetch every question, keep those whose search text contains the query. */
  function SearchQuestions(find: Query -> Remote<seq<Question>>, query: string): (found: seq<Question>)
    ensures find(QuestionsQuery()).Threw? ==> found == []
    ensures find(QuestionsQuery()).Returned? ==> |found| <= |find(QuestionsQuery()).value|
    ensures find(QuestionsQuery()).Returned? ==> found == Filter(find(QuestionsQuery()).value, Matcher(query))
  {
    match find(QuestionsQuery())
    case Returned(questions) => Filter(questions, Matcher(query))
    case Threw(e) => if IsNotFound(e) then [] else []
  }

  /** A question is found exactly when it was fetched and its lower-cased search text contains the lower-cased query. */
  lemma SearchKeepsExactlyMatches(find: Query -> Remote<seq<Question>>, query: string, q: Question)
    requires find(QuestionsQuery()).Returned?
    ensures q in SearchQuestions(find, query) <==> q in find(QuestionsQuery()).value && MatchesSearch(q, query)
  {
    FilterMembership(find(QuestionsQuery()).value, Matcher(query), q);
  }

  /** The search does not reorder: its result is a subsequence of the fetched list. */
  lemma SearchPreservesOrder(find: Query -> Remote<seq<Question>>, query: string)
    requires find(QuestionsQuery()).Returned?
    ensures IsSubsequence(SearchQuestions(find, query), find(QuestionsQuery()).value)
  {
    FilterIsSubsequence(find(QuestionsQuery()).value, Matcher(query));
  }

  /** Queries that differ only in letter case find the same questions. */
  lemma SearchIsCaseInsensitive(find: Query -> Remote<seq<Question>>, query1: string, query2: string)
    requires ToLower(query1) == ToLower(query2)
    ensures SearchQuestions(find, query1) == SearchQuestions(find, query2)
  {
    if find(QuestionsQuery()).Returned? {
      FilterExtensional(find(QuestionsQuery()).value, Matcher(query1), Matcher(query2));
    }
  }

  /** The empty query keeps every fetched question, since every text contains "". */
  lemma SearchEmptyQueryKeepsAll(find: Query -> Remote<seq<Question>>)
    requires find(QuestionsQuery()).Returned?
    ensures SearchQuestions(find, "") == find(QuestionsQuery()).value
  {
    var questions := find(QuestionsQuery()).value;
    forall k | 0 <= k < |questions| ensures MatchesSearch(questions[k], "") {
      ContainsEmpty(SearchText(questions[k]));
    }
    FilterAll(questions, Matcher(""));
  }

  /** Searching the search result again with the same query changes nothing. */
  lemma SearchIdempotent(questions: seq<Question>, query: string)
    ensures Filter(Filter(questions, Matcher(query)), Matcher(query)) == Filter(questions, Matcher(query))
  {
    var p := Matcher(query);
    FilterCompose(questions, p, p, p);
  }

  /** A question titled "React hooks bug" is found by the query "react": the match is a case-folded substring. */
  lemma SearchExample(find: Query -> Remote<seq<Question>>, q: Question)
    requires find(QuestionsQuery()) == Returned([q])
    requires q.header.title == "React hooks bug"
    ensures SearchQuestions(find, "react") == [q]
  {
    var text := SearchText(q);
    assert text[0..5] == "react";
    ContainsAt(text, ToLower("react"), 0);
  }

  // ---------------------------------------------------------------- reference store

  /** A CMS exact-match filter: every field named in `where` reads as the given value. */
  predicate MatchesWhere<T>(where: map<string, Value>, o: T, field: (T, string) -> Value) {
    forall path :: path in where ==> field(o, path) == where[path]
  }

  /** A two-key filter matches an object exactly when both of its fields hold the given values. */
  lemma MatchesPair<T>(k1: string, v1: Value, k2: string, v2: Value, o: T, field: (T, string) -> Value)
    requires k1 != k2
    ensures MatchesWhere(map[k1 := v1, k2 := v2], o, field) <==> field(o, k1) == v1 && field(o, k2) == v2
  {
    var where := map[k1 := v1, k2 := v2];
    if field(o, k1) == v1 && field(o, k2) == v2 {
      forall path | path in where ensures field(o, path) == where[path] {
      }
    } else {
      assert k1 in where && k2 in where;
    }
  }

  /** How the CMS answers `find(q)` from a store already in the query's sort order: filter, then limit. */
  function Run<T>(q: Query, store: seq<T>, field: (T, string) -> Value): seq<T> {
    var matching := Filter(store, o => MatchesWhere(q.where, o, field));
    match q.limit
    case None => matching
    case Some(n) => Take(matching, n)
  }

  /** How the CMS reads the question fields the queries filter on. */
  function QuestionField(q: Question, path: string): Value {
    if path == "type" then Str(q.header.kind)
    else if path == "slug" then Str(q.header.slug)
    else if path == "metadata.is_featured" && q.meta.isFeatured.Some? then Bool(q.meta.isFeatured.value)
    else Undefined
  }

  function AnswerField(a: Answer, path: string): Value {
    if path == "type" then Str(a.header.kind)
    else if path == "slug" then Str(a.header.slug)
    else if path == "metadata.question" then Str(QuestionRefId(a.meta.question))
    else Undefined
  }

  function UserBadgeField(b: UserBadge, path: string): Value {
    if path == "type" then Str(b.header.kind)
    else if path == "slug" then Str(b.header.slug)
    else if path == "metadata.user" then Str(b.meta.user.header.id)
    else Undefined
  }

  predicate IsFeaturedQuestion(q: Question) {
    q.header.kind == "questions" && q.meta.isFeatured == Some(true)
  }

  /**
   * From a store, `getFeaturedQuestions` returns the first five featured
   * questions in store order, whether or not featuring agrees with that order.
   */
  lemma FeaturedFromStore(find: Query -> Remote<seq<Question>>, store: seq<Question>)
    requires find(FeaturedQuestionsQuery()) == Returned(Run(FeaturedQuestionsQuery(), store, QuestionField))
    ensures GetFeaturedQuestions(find) == Take(Filter(store, IsFeaturedQuestion), 5)
    ensures |GetFeaturedQuestions(find)| <= 5
  {
    var where := FeaturedQuestionsQuery().where;
    forall k | 0 <= k < |store|
      ensures MatchesWhere(where, store[k], QuestionField) == IsFeaturedQuestion(store[k])
    {
      MatchesPair("type", Str("questions"), "metadata.is_featured", Bool(true), store[k], QuestionField);
    }
    FilterExtensional(store, o => MatchesWhere(where, o, QuestionField), IsFeaturedQuestion);
  }

  /** From a store, `getAnswersByQuestionId` returns exactly the answers whose question is `questionId`, in store order. */
  lemma AnswersFromStore(find: Query -> Remote<seq<Answer>>, store: seq<Answer>, questionId: string)
    requires find(AnswersQuery(questionId)) == Returned(Run(AnswersQuery(questionId), store, AnswerField))
    ensures GetAnswersByQuestionId(find, questionId)
         == Filter(store, (a: Answer) => a.header.kind == "answers" && QuestionRefId(a.meta.question) == questionId)
  {
    var where := AnswersQuery(questionId).where;
    var p := (a: Answer) => a.header.kind == "answers" && QuestionRefId(a.meta.question) == questionId;
    forall k | 0 <= k < |store| ensures MatchesWhere(where, store[k], AnswerField) == p(store[k]) {
      MatchesPair("type", Str("answers"), "metadata.question", Str(questionId), store[k], AnswerField);
    }
    FilterExtensional(store, o => MatchesWhere(where, o, AnswerField), p);
  }

  /** From a store, `getUserBadges` returns exactly the user-badges awarded to `userId`, in store order. */
  lemma UserBadgesFromStore(find: Query -> Remote<seq<UserBadge>>, store: seq<UserBadge>, userId: string)
    requires find(UserBadgesQuery(userId)) == Returned(Run(UserBadgesQuery(userId), store, UserBadgeField))
    ensures GetUserBadges(find, userId)
         == Filter(store, (b: UserBadge) => b.header.kind == "user-badges" && b.meta.user.header.id == userId)
  {
    var where := UserBadgesQuery(userId).where;
    var p := (b: UserBadge) => b.header.kind == "user-badges" && b.meta.user.header.id == userId;
    forall k | 0 <= k < |store| ensures MatchesWhere(where, store[k], UserBadgeField) == p(store[k]) {
      MatchesPair("type", Str("user-badges"), "metadata.user", Str(userId), store[k], UserBadgeField);
    }
    FilterExtensional(store, o => MatchesWhere(where, o, UserBadgeField), p);
  }
}
