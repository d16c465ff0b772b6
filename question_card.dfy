/**
 * `components/QuestionCard.tsx`: the values a question card derives from a
 * question (status and category labels with their defaults, the status
 * colour, the heading, the content preview, the tag chips and the author
 * block).
 */
module QuestionCard {
  import opened Wrappers
  import opened Types
  import opened Strings
  import opened Sequences
  import Tags
  import UserAvatar

  /** `question.metadata?.status?.value || 'Open'`. */
  function StatusLabel(q: Question): (status: string)
    ensures status != ""
    ensures (q.meta.status.None? || q.meta.status.value.value == "") ==> status == "Open"
    ensures q.meta.status.Some? && q.meta.status.value.value != "" ==> status == q.meta.status.value.value
  {
    if q.meta.status.Some? && q.meta.status.value.value != "" then q.meta.status.value.value else "Open"
  }

  /** `question.metadata?.category?.value || 'General'`. */
  function CategoryLabel(q: Question): (category: string)
    ensures category != ""
    ensures (q.meta.category.None? || q.meta.category.value.value == "") ==> category == "General"
    ensures q.meta.category.Some? && q.meta.category.value.value != "" ==> category == q.meta.category.value.value
  {
    if q.meta.category.Some? && q.meta.category.value.value != "" then q.meta.category.value.value else "General"
  }

  /** `question.metadata?.views_count || 0`. */
  function ViewsCount(q: Question): (views: int)
    ensures q.meta.viewsCount.None? ==> views == 0
    ensures q.meta.viewsCount.Some? ==> views == q.meta.viewsCount.value
  {
    q.meta.viewsCount.GetOr(0)
  }

  /** `statusColors`: the four known status values and their classes. */
  const StatusColours: map<string, string> := map[
    "Open" := "bg-blue-100 text-blue-800",
    "Answered" := "bg-green-100 text-green-800",
    "Solved" := "bg-purple-100 text-purple-800",
    "Closed" := "bg-gray-100 text-gray-800"]

  /** `statusColors[status] || statusColors.Open`. */
  function StatusClasses(status: string): (classes: string)
    ensures classes in StatusColours.Values
    ensures status in StatusColours ==> classes == StatusColours[status]
    ensures status !in StatusColours ==> classes == StatusColours["Open"]
  {
    if status in StatusColours then StatusColours[status] else StatusColours["Open"]
  }

  /** The four status colours are distinct, so a known status is never shown in another status's colour. */
  lemma StatusColoursDistinct(s: string, t: string)
    requires s in StatusColours && t in StatusColours && s != t
    ensures StatusClasses(s) != StatusClasses(t)
  {
  }

  /** `question.metadata?.title || question.title`. */
  function Heading(q: Question): (heading: string)
    ensures q.meta.title != "" ==> heading == q.meta.title
    ensures q.meta.title == "" ==> heading == q.header.title
  {
    if q.meta.title != "" then q.meta.title else q.header.title
  }

  /** The question's tags. */
  function QuestionTags(q: Question): seq<string> {
    Tags.ParseTags(q.meta.tags)
  }

  // ---------------------------------------------------------------- preview

  /** How many characters of content the preview keeps. */
  const PreviewLength: nat := 200

  /**
   * The preview exactly as written: `content?.substring(0, 200) + '...' || ''`.
   * An absent content makes the left operand `undefined + '...'`, which is the
   * string "undefined..."; that string is truthy, so the `|| ''` never applies.
   */
  function PreviewAsWritten(content: Option<string>): (preview: string)
    ensures preview != ""
    ensures content.None? ==> preview == "undefined..."
    ensures content.Some? ==> preview == Take(content.value, PreviewLength) + "..."
  {
    match content
    case None => "undefined" + "..."
    case Some(c) => Take(c, PreviewLength) + "..."
  }

  /** A question without content is previewed with the word "undefined", which is no part of it. */
  lemma PreviewAsWrittenShowsUndefined(q: Question)
    requires q.meta.content.None?
    ensures PreviewAsWritten(q.meta.content) == "undefined..."
    ensures !IsPreviewOf(PreviewAsWritten(q.meta.content), q.meta.content)
  {
  }

  /**
   * What a preview is meant to be: empty when there is no content, otherwise
   * a prefix of the content followed by "...".
   */
  predicate IsPreviewOf(preview: string, content: Option<string>) {
    match content
    case None => preview == ""
    case Some(c) =>
      |preview| >= 3 && preview[|preview| - 3..] == "..."
      && var kept := preview[..|preview| - 3]; |kept| <= |c| && kept == c[..|kept|]
  }

  /** The preview as evidently intended: the `|| ''` fallback applies when there is no content. */
  function Preview(content: Option<string>): (preview: string)
    ensures IsPreviewOf(preview, content)
    ensures content.Some? ==> |preview| <= PreviewLength + 3
    ensures content.Some? ==> preview == Take(content.value, PreviewLength) + "..."
    ensures content.Some? && |content.value| <= PreviewLength ==> preview == content.value + "..."
  {
    match content
    case None => ""
    case Some(c) =>
      var kept := Take(c, PreviewLength);
      assert (kept + "...")[..|kept|] == kept;
      assert (kept + "...")[|kept|..] == "...";
      kept + "..."
  }

  /** The intended preview differs from the one written only for a question without content. */
  lemma PreviewsAgreeWithContent(content: Option<string>)
    ensures content.Some? <==> Preview(content) == PreviewAsWritten(content)
  {
  }

  // ---------------------------------------------------------------- the card

  /** The author block: a link to the author with their reputation. */
  datatype AuthorBlock = AuthorBlock(slug: string, name: string, reputation: int)

  /** Everything the card shows. */
  datatype Card = Card(
    status: string,
    statusClasses: string,
    solvedIcon: bool,
    category: string,
    featured: bool,
    heading: string,
    preview: string,
    chips: seq<string>,
    overflow: Option<string>,
    author: Option<AuthorBlock>,
    views: int)

  /**
   * `typeof question.metadata?.author === 'object'` together with
   * `showAuthor && author`: an author block is drawn only for a resolved author.
   */
  function AuthorBlockOf(q: Question, showAuthor: bool): (block: Option<AuthorBlock>)
    ensures block.Some? <==> showAuthor && q.meta.author.ByUser?
    ensures block.Some? ==>
      (block.value.name == UserAvatar.DisplayName(q.meta.author.user)
       && block.value.reputation == q.meta.author.user.meta.reputationScore.GetOr(0))
  {
    if showAuthor && q.meta.author.ByUser? then
      var u := q.meta.author.user;
      Some(AuthorBlock(u.header.slug, UserAvatar.DisplayName(u), u.meta.reputationScore.GetOr(0)))
    else None
  }

  /**
   * The card for a question; `showAuthor` defaults to true. The preview is the
   * one written, so a question without content shows "undefined...".
   */
  function Render(q: Question, showAuthor: Option<bool>): (card: Card)
    ensures card.author == AuthorBlockOf(q, showAuthor != Some(false))
    ensures card.author.Some? <==> showAuthor != Some(false) && q.meta.author.ByUser?
    ensures card.statusClasses == StatusClasses(card.status)
    ensures card.solvedIcon <==> card.status == "Solved"
    ensures card.featured <==> q.meta.isFeatured == Some(true)
    ensures card.status == StatusLabel(q) && card.category == CategoryLabel(q)
    ensures card.heading == Heading(q) && card.views == ViewsCount(q)
    ensures card.preview == PreviewAsWritten(q.meta.content)
    ensures q.meta.content.Some? ==> IsPreviewOf(card.preview, q.meta.content)
    ensures card.chips == Tags.ShownTags(QuestionTags(q))
    ensures card.overflow == Tags.OverflowLabel(QuestionTags(q), " more")
  {
    var tags := QuestionTags(q);
    var status := StatusLabel(q);
    Card(
      status,
      StatusClasses(status),
      status == "Solved",
      CategoryLabel(q),
      q.meta.isFeatured == Some(true),
      Heading(q),
      PreviewAsWritten(q.meta.content),
      Tags.ShownTags(tags),
      Tags.OverflowLabel(tags, " more"),
      AuthorBlockOf(q, showAuthor.GetOr(true)),
      ViewsCount(q))
  }

  /** A question with no status, category or view count is shown as an open, general question with no views. */
  lemma DefaultsOfBareQuestion(q: Question)
    requires q.meta.status.None? && q.meta.category.None? && q.meta.viewsCount.None?
    ensures Render(q, None).status == "Open"
    ensures Render(q, None).category == "General"
    ensures Render(q, None).views == 0
    ensures Render(q, None).statusClasses == StatusColours["Open"]
  {
  }

  /** A status outside the four known values is drawn in the "Open" colour, under its own name. */
  lemma UnknownStatusLooksOpen(q: Question)
    requires q.meta.status.Some? && q.meta.status.value.value != ""
    requires q.meta.status.value.value !in StatusColours
    ensures Render(q, None).status == q.meta.status.value.value
    ensures Render(q, None).statusClasses == StatusColours["Open"]
  {
  }
}
