/**
 * `components/SingleBadgeCard.tsx`: one badge of the badge catalogue, with
 * its type colours, icon, requirement line and criteria block.
 */
module SingleBadgeCard {
  import opened Wrappers
  import opened Types
  import opened Strings

  /** The three badge types the components know, under their displayed names. */
  const KnownTypes: set<string> := {"Company Team", "Achievement", "Expertise"}

  /** The displayed type if it is one of the three, else "Achievement": the row every styling table falls back to. */
  function StyledType(t: string): (styled: string)
    ensures styled in KnownTypes
    ensures t in KnownTypes ==> styled == t
    ensures t !in KnownTypes ==> styled == "Achievement"
  {
    if t in KnownTypes then t else "Achievement"
  }

  /** `badgeTypeColors`. */
  const TypeColours: map<string, string> := map[
    "Company Team" := "border-green-200 bg-green-50",
    "Achievement" := "border-amber-200 bg-amber-50",
    "Expertise" := "border-blue-200 bg-blue-50"]

  /** `badgeTypeColors[badgeType] || badgeTypeColors.Achievement`. */
  function ColourClasses(t: string): (classes: string)
    ensures classes == TypeColours[StyledType(t)]
  {
    if t in TypeColours then TypeColours[t] else TypeColours["Achievement"]
  }

  /** `badge.metadata?.name || badge.title`. */
  function BadgeName(b: Badge): (name: string)
    ensures b.meta.name != "" ==> name == b.meta.name
    ensures b.meta.name == "" ==> name == b.header.title
  {
    if b.meta.name != "" then b.meta.name else b.header.title
  }

  /** The badge icon: its image, or a trophy on a coloured disc. */
  datatype Icon = IconImage(src: string) | Placeholder(colour: string)

  /** The colour of the placeholder disc, `badge.metadata?.color || '#3b82f6'`. */
  function PlaceholderColour(b: Badge): (colour: string)
    ensures colour != ""
    ensures b.meta.color.Some? && b.meta.color.value != "" ==> colour == b.meta.color.value
    ensures (b.meta.color.None? || b.meta.color.value == "") ==> colour == "#3b82f6"
  {
    if b.meta.color.Some? && b.meta.color.value != "" then b.meta.color.value else "#3b82f6"
  }

  /** The icon, given the image query string a card asks the image service for. */
  function IconOf(b: Badge, imageQuery: string): (icon: Icon)
    ensures icon.IconImage? <==> b.meta.icon.Some? && b.meta.icon.value.imgixUrl != ""
    ensures icon.IconImage? ==> icon.src == b.meta.icon.value.imgixUrl + imageQuery
    ensures icon.Placeholder? ==> icon.colour == PlaceholderColour(b)
  {
    if b.meta.icon.Some? && b.meta.icon.value.imgixUrl != "" then IconImage(b.meta.icon.value.imgixUrl + imageQuery)
    else Placeholder(PlaceholderColour(b))
  }

  /** `badge.metadata?.points_required || 0`. */
  function PointsRequired(b: Badge): (points: int)
    ensures b.meta.pointsRequired.None? ==> points == 0
    ensures b.meta.pointsRequired.Some? ==> points == b.meta.pointsRequired.value
  {
    b.meta.pointsRequired.GetOr(0)
  }

  /** The "Requires N reputation points" line, shown when the requirement is positive. */
  function RequirementLine(b: Badge): (line: Option<string>)
    ensures line.Some? <==> PointsRequired(b) > 0
    ensures line.Some? ==> line.value == "Requires " + NatToString(PointsRequired(b)) + " reputation points"
  {
    var points := PointsRequired(b);
    if points > 0 then Some("Requires " + NatToString(points) + " reputation points") else None
  }

  /** The query the catalogue card appends to the badge image's address: an 80 by 80 crop. */
  const ImageQuery: string := "?w=80&h=80&fit=crop&auto=format,compress"

  /** Everything the card shows. */
  datatype Card = Card(
    colourClasses: string,
    icon: Icon,
    name: string,
    description: string,
    requirement: Option<string>,
    criteria: Option<string>)

  /** The card for a badge. */
  function Render(b: Badge): (card: Card)
    ensures card.colourClasses == TypeColours[StyledType(BadgeTypeLabel(b))]
    ensures card.name == BadgeName(b)
    ensures card.icon == IconOf(b, ImageQuery)
    ensures card.description == b.meta.description
    ensures card.requirement == RequirementLine(b)
    ensures card.requirement.Some? <==> b.meta.pointsRequired.Some? && b.meta.pointsRequired.value > 0
    ensures card.criteria.Some? <==> b.meta.criteria.Some? && b.meta.criteria.value != ""
    ensures card.criteria.Some? ==> card.criteria.value == b.meta.criteria.value
  {
    Card(
      ColourClasses(BadgeTypeLabel(b)),
      IconOf(b, ImageQuery),
      BadgeName(b),
      b.meta.description,
      RequirementLine(b),
      if b.meta.criteria.Some? && b.meta.criteria.value != "" then b.meta.criteria else None)
  }

  /** A badge without a type is styled, like a badge of an unknown type, as an achievement. */
  lemma UntypedOrUnknownIsAchievement(b: Badge)
    requires b.meta.badgeType.None? || BadgeTypeLabel(b) !in KnownTypes
    ensures Render(b).colourClasses == TypeColours["Achievement"]
  {
  }

  /** The requirement line reads back the number of points that the badge requires. */
  lemma RequirementReadsBack(b: Badge)
    requires PointsRequired(b) > 0
    ensures var line := RequirementLine(b).value;
      |line| > 27 && ParseNat(line[9..|line| - 18]) == PointsRequired(b)
  {
    var digits := NatToString(PointsRequired(b));
    var line := "Requires " + digits + " reputation points";
    assert line[9..|line| - 18] == digits;
    NatToStringRoundTrip(PointsRequired(b));
  }
}
