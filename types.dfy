/**
 * The content model of `types.ts`: the five entity kinds stored in the CMS,
 * the closed enumerations of category, status and badge-type keys, and the
 * `isUser`/`isQuestion`/`isAnswer`/`isBadge` type guards.
 *
 * Optional metadata fields are `Option`s. Fields that the TypeScript types
 * declare as required but that the components still default with `||` (a
 * question's content, a badge's type) are `Option`s too, so that the defaults
 * have something to act on.
 */
module Types {
  import opened Wrappers

  /** The fields every CMS object carries; `kind` is the object's `type`. */
  datatype Header = Header(
    id: string,
    slug: string,
    title: string,
    kind: string,
    createdAt: string,
    modifiedAt: string)

  /** A `{ key, value }` select-field pair, as categories, statuses and badge types are stored. */
  datatype KeyValue = KeyValue(key: string, value: string)

  /** A CMS media reference. */
  datatype Image = Image(url: string, imgixUrl: string)

  datatype UserMeta = UserMeta(
    name: string,
    username: string,
    email: string,
    bio: Option<string>,
    avatar: Option<Image>,
    companyRole: Option<string>,
    location: Option<string>,
    website: Option<string>,
    reputationScore: Option<int>,
    joinDate: string,
    expertiseTags: Option<string>)

  datatype User = User(header: Header, meta: UserMeta)

  /** A question's or answer's author: the resolved user record, or its raw id when the query did not expand it. */
  datatype Author = ByUser(user: User) | ById(id: string)

  datatype QuestionMeta = QuestionMeta(
    title: string,
    content: Option<string>,
    author: Author,
    tags: Option<string>,
    category: Option<KeyValue>,
    viewsCount: Option<int>,
    status: Option<KeyValue>,
    isFeatured: Option<bool>)

  datatype Question = Question(header: Header, meta: QuestionMeta)

  /** The question an answer belongs to: resolved, or its raw id. */
  datatype QuestionRef = QuestionObject(question: Question) | QuestionId(id: string)

  datatype CodeSnippet = CodeSnippet(language: string, code: string)

  datatype AnswerMeta = AnswerMeta(
    content: string,
    author: Author,
    question: QuestionRef,
    isAccepted: Option<bool>,
    helpfulCount: Option<int>,
    codeSnippets: Option<seq<CodeSnippet>>)

  datatype Answer = Answer(header: Header, meta: AnswerMeta)

  datatype BadgeMeta = BadgeMeta(
    name: string,
    description: string,
    icon: Option<Image>,
    badgeType: Option<KeyValue>,
    color: Option<string>,
    pointsRequired: Option<int>,
    criteria: Option<string>)

  datatype Badge = Badge(header: Header, meta: BadgeMeta)

  datatype UserBadgeMeta = UserBadgeMeta(
    user: User,
    badge: Option<Badge>,
    earnedDate: Option<string>,
    reason: Option<string>)

  datatype UserBadge = UserBadge(header: Header, meta: UserBadgeMeta)

  /**
   * `badge.metadata?.badge_type?.value || 'Achievement'`: the badge type a
   * component displays and groups by.
   */
  function BadgeTypeLabel(b: Badge): (typeName: string)
    ensures typeName != ""
    ensures (b.meta.badgeType.None? || b.meta.badgeType.value.value == "") ==> typeName == "Achievement"
    ensures b.meta.badgeType.Some? && b.meta.badgeType.value.value != "" ==> typeName == b.meta.badgeType.value.value
  {
    if b.meta.badgeType.Some? && b.meta.badgeType.value.value != "" then b.meta.badgeType.value.value
    else "Achievement"
  }

  /** The id a reference resolves to, whether or not it was expanded. */
  function AuthorId(a: Author): string {
    match a
    case ByUser(u) => u.header.id
    case ById(id) => id
  }

  function QuestionRefId(q: QuestionRef): string {
    match q
    case QuestionObject(question) => question.header.id
    case QuestionId(id) => id
  }

  // ---------------------------------------------------------------- enumerations

  datatype QuestionCategory = General | Technical | Feature | Bug | Integration

  datatype QuestionStatus = Open | Answered | Solved | Closed

  datatype BadgeType = Company | Achievement | Expertise

  function CategoryKey(c: QuestionCategory): string {
    match c
    case General => "general"
    case Technical => "technical"
    case Feature => "feature"
    case Bug => "bug"
    case Integration => "integration"
  }

  function StatusKey(s: QuestionStatus): string {
    match s
    case Open => "open"
    case Answered => "answered"
    case Solved => "solved"
    case Closed => "closed"
  }

  function BadgeTypeKey(b: BadgeType): string {
    match b
    case Company => "company"
    case Achievement => "achievement"
    case Expertise => "expertise"
  }

  /** Reads a category key back; anything outside the five keys is not a category. */
  function ParseCategory(key: string): (r: Option<QuestionCategory>)
    ensures r.Some? ==> CategoryKey(r.value) == key
  {
    if key == "general" then Some(General)
    else if key == "technical" then Some(Technical)
    else if key == "feature" then Some(Feature)
    else if key == "bug" then Some(Bug)
    else if key == "integration" then Some(Integration)
    else None
  }

  function ParseStatus(key: string): (r: Option<QuestionStatus>)
    ensures r.Some? ==> StatusKey(r.value) == key
  {
    if key == "open" then Some(Open)
    else if key == "answered" then Some(Answered)
    else if key == "solved" then Some(Solved)
    else if key == "closed" then Some(Closed)
    else None
  }

  function ParseBadgeType(key: string): (r: Option<BadgeType>)
    ensures r.Some? ==> BadgeTypeKey(r.value) == key
  {
    if key == "company" then Some(Company)
    else if key == "achievement" then Some(Achievement)
    else if key == "expertise" then Some(Expertise)
    else None
  }

  /** Each enumeration is closed: every member's key parses back to it, so the keys are also pairwise distinct. */
  lemma EnumerationKeysRoundTrip(c: QuestionCategory, s: QuestionStatus, b: BadgeType)
    ensures ParseCategory(CategoryKey(c)) == Some(c)
    ensures ParseStatus(StatusKey(s)) == Some(s)
    ensures ParseBadgeType(BadgeTypeKey(b)) == Some(b)
  {
  }

  /** There are exactly five category keys, four status keys and three badge-type keys. */
  lemma EnumerationSizes()
    ensures |set c: QuestionCategory | true :: CategoryKey(c)| == 5
    ensures |set s: QuestionStatus | true :: StatusKey(s)| == 4
    ensures |set b: BadgeType | true :: BadgeTypeKey(b)| == 3
  {
    var cs := set c: QuestionCategory | true :: CategoryKey(c);
    assert cs == {"general", "technical", "feature", "bug", "integration"} by {
      forall k | k in cs ensures k in {"general", "technical", "feature", "bug", "integration"} {
        var c :| CategoryKey(c) == k;
      }
      assert CategoryKey(General) in cs && CategoryKey(Technical) in cs && CategoryKey(Feature) in cs;
      assert CategoryKey(Bug) in cs && CategoryKey(Integration) in cs;
    }
    var ss := set s: QuestionStatus | true :: StatusKey(s);
    assert ss == {"open", "answered", "solved", "closed"} by {
      forall k | k in ss ensures k in {"open", "answered", "solved", "closed"} {
        var s :| StatusKey(s) == k;
      }
      assert StatusKey(Open) in ss && StatusKey(Answered) in ss;
      assert StatusKey(Solved) in ss && StatusKey(Closed) in ss;
    }
    var bs := set b: BadgeType | true :: BadgeTypeKey(b);
    assert bs == {"company", "achievement", "expertise"} by {
      forall k | k in bs ensures k in {"company", "achievement", "expertise"} {
        var b :| BadgeTypeKey(b) == k;
      }
      assert BadgeTypeKey(Company) in bs && BadgeTypeKey(Achievement) in bs && BadgeTypeKey(Expertise) in bs;
    }
  }

  // ---------------------------------------------------------------- type guards

  predicate IsUser(h: Header) { h.kind == "users" }

  predicate IsQuestion(h: Header) { h.kind == "questions" }

  predicate IsAnswer(h: Header) { h.kind == "answers" }

  predicate IsBadge(h: Header) { h.kind == "badges" }

  /** The number of type guards that accept an object. */
  function GuardsHolding(h: Header): (n: nat)
    ensures n <= 1
    ensures n == 1 <==> h.kind in {"users", "questions", "answers", "badges"}
  {
    (if IsUser(h) then 1 else 0) + (if IsQuestion(h) then 1 else 0)
    + (if IsAnswer(h) then 1 else 0) + (if IsBadge(h) then 1 else 0)
  }
}
