/**
 * `components/BadgeCard.tsx`: a badge a user has earned, with its type label
 * and class, its icon, the reason it was awarded and, on request, when.
 */
module BadgeCard {
  import opened Wrappers
  import opened Types
  import SingleBadgeCard

  /** `badgeTypeColors`: the badge classes of the three known types. */
  const TypeClasses: map<string, string> := map[
    "Company Team" := "badge-company",
    "Achievement" := "badge-achievement",
    "Expertise" := "badge-expertise"]

  /** `badgeTypeColors[badgeType] || 'badge-achievement'`. */
  function TypeClass(t: string): (classes: string)
    ensures t in TypeClasses ==> classes == TypeClasses[t]
    ensures t !in TypeClasses ==> classes == "badge-achievement"
  {
    if t in TypeClasses then TypeClasses[t] else "badge-achievement"
  }

  /**
   * This card and the badge-catalogue card fall back the same way: both style
   * a type outside the three known ones as an achievement.
   */
  lemma FallbacksAgree(t: string)
    ensures TypeClass(t) == TypeClasses[SingleBadgeCard.StyledType(t)]
    ensures SingleBadgeCard.ColourClasses(t) == SingleBadgeCard.TypeColours[SingleBadgeCard.StyledType(t)]
    ensures TypeClasses.Keys == SingleBadgeCard.TypeColours.Keys == SingleBadgeCard.KnownTypes
  {
  }

  /** The query the card appends to the badge image's address: a 64 by 64 crop. */
  const ImageQuery: string := "?w=64&h=64&fit=crop&auto=format,compress"

  /** Everything the card shows. */
  datatype Card = Card(
    name: string,
    badgeType: string,
    typeClass: string,
    icon: SingleBadgeCard.Icon,
    description: string,
    reason: Option<string>,
    earnedDate: Option<string>)

  /** A present, non-empty optional string. */
  function Truthy(s: Option<string>): bool {
    s.Some? && s.value != ""
  }

  /**
   * The card for an earned badge, or nothing when the award has no badge;
   * `showEarnedDate` defaults to false.
   */
  function Render(award: UserBadge, showEarnedDate: Option<bool>): (card: Option<Card>)
    ensures card.None? <==> award.meta.badge.None?
    ensures card.Some? ==>
      (card.value.badgeType == BadgeTypeLabel(award.meta.badge.value)
       && card.value.typeClass == TypeClass(card.value.badgeType)
       && card.value.name == SingleBadgeCard.BadgeName(award.meta.badge.value)
       && card.value.icon == SingleBadgeCard.IconOf(award.meta.badge.value, ImageQuery)
       && card.value.description == award.meta.badge.value.meta.description)
    ensures card.Some? ==> (card.value.reason.Some? <==> Truthy(award.meta.reason))
    ensures card.Some? && card.value.reason.Some? ==> card.value.reason == award.meta.reason
    ensures card.Some? ==> (card.value.earnedDate.Some? <==> showEarnedDate == Some(true) && Truthy(award.meta.earnedDate))
  {
    match award.meta.badge
    case None => None
    case Some(b) =>
      var t := BadgeTypeLabel(b);
      Some(Card(
        SingleBadgeCard.BadgeName(b),
        t,
        TypeClass(t),
        SingleBadgeCard.IconOf(b, ImageQuery),
        b.meta.description,
        if Truthy(award.meta.reason) then award.meta.reason else None,
        if showEarnedDate.GetOr(false) && Truthy(award.meta.earnedDate) then award.meta.earnedDate else None))
  }

  /** By default the earned date is never shown, whatever the award records. */
  lemma EarnedDateHiddenByDefault(award: UserBadge)
    requires award.meta.badge.Some?
    ensures Render(award, None).value.earnedDate.None?
  {
  }

  /**
   * A badge without an uploaded image is drawn as a disc in its own colour,
   * or in "#3b82f6" when it has none.
   */
  lemma PlaceholderIcon(award: UserBadge)
    requires award.meta.badge.Some?
    requires award.meta.badge.value.meta.icon.None?
    ensures Render(award, None).value.icon.Placeholder?
    ensures award.meta.badge.value.meta.color.None? ==> Render(award, None).value.icon.colour == "#3b82f6"
  {
  }

  /** A badge without a type is labelled and styled as an achievement. */
  lemma UntypedBadgeIsAchievement(award: UserBadge)
    requires award.meta.badge.Some? && award.meta.badge.value.meta.badgeType.None?
    ensures Render(award, None).value.badgeType == "Achievement"
    ensures Render(award, None).value.typeClass == "badge-achievement"
  {
  }
}
