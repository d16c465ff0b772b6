/**
 * `components/BadgeGrid.tsx`: badges grouped by their displayed type with a
 * `reduce` into a dictionary of arrays, then rendered as one section per type
 * in the fixed order Company Team, Achievement, Expertise.
 */
module BadgeGrid {
  import opened Types
  import opened Sequences

  /** `badgeOrder`: the section order, and the only types that are ever rendered. */
  const BadgeOrder: seq<string> := ["Company Team", "Achievement", "Expertise"]

  function OfType(t: string): Badge -> bool {
    b => BadgeTypeLabel(b) == t
  }

  /** The types that occur among `badges`. */
  function TypesIn(badges: seq<Badge>): set<string> {
    set b | b in badges :: BadgeTypeLabel(b)
  }

  /** `groups` is the grouping of `badges`: one bucket per occurring type, holding that type's badges in input order. */
  predicate IsGrouping(badges: seq<Badge>, groups: map<string, seq<Badge>>) {
    && groups.Keys == TypesIn(badges)
    && forall t :: t in groups ==> groups[t] == Filter(badges, OfType(t))
  }

  /**
   * The `reduce`: for each badge, create its type's bucket if missing, then
   * push the badge onto it.
   */
  method GroupByType(badges: seq<Badge>) returns (groups: map<string, seq<Badge>>)
    ensures IsGrouping(badges, groups)
  {
    groups := map[];
    for i := 0 to |badges|
      invariant IsGrouping(badges[..i], groups)
    {
      var badge := badges[i];
      assert badges[..i + 1] == badges[..i] + [badge];
      var t := BadgeTypeLabel(badge);
      ghost var before := groups;
      if t !in groups {
        groups := groups[t := []];
      }
      groups := groups[t := groups[t] + [badge]];
      assert groups == before[t := (if t in before then before[t] else []) + [badge]];
      PushKeepsGrouping(badges[..i], before, badge);
    }
    assert badges[..|badges|] == badges;
  }

  /** Pushing a badge onto its type's bucket, created empty if missing, keeps the grouping. */
  lemma PushKeepsGrouping(prefix: seq<Badge>, groups: map<string, seq<Badge>>, badge: Badge)
    requires IsGrouping(prefix, groups)
    ensures var t := BadgeTypeLabel(badge);
      IsGrouping(prefix + [badge], groups[t := (if t in groups then groups[t] else []) + [badge]])
  {
    var t := BadgeTypeLabel(badge);
    var next := groups[t := (if t in groups then groups[t] else []) + [badge]];
    if t !in groups {
      forall k | 0 <= k < |prefix| ensures !OfType(t)(prefix[k]) {
        assert prefix[k] in prefix;
      }
      FilterNone(prefix, OfType(t));
    }
    forall u | u in next ensures next[u] == Filter(prefix + [badge], OfType(u)) {
      FilterAppend(prefix, [badge], OfType(u));
    }
    TypesInPush(prefix, badge);
  }

  lemma TypesInPush(prefix: seq<Badge>, badge: Badge)
    ensures TypesIn(prefix + [badge]) == TypesIn(prefix) + {BadgeTypeLabel(badge)}
  {
    assert forall b :: b in prefix + [badge] <==> b in prefix || b == badge;
  }

  /** Every badge lands in the bucket of its own type and in no other. */
  lemma EachBadgeInExactlyOneGroup(badges: seq<Badge>, groups: map<string, seq<Badge>>, b: Badge)
    requires IsGrouping(badges, groups)
    requires b in badges
    ensures BadgeTypeLabel(b) in groups && b in groups[BadgeTypeLabel(b)]
    ensures forall t :: t in groups && b in groups[t] ==> t == BadgeTypeLabel(b)
  {
    FilterMembership(badges, OfType(BadgeTypeLabel(b)), b);
    forall t | t in groups && b in groups[t] ensures t == BadgeTypeLabel(b) {
      FilterMembership(badges, OfType(t), b);
    }
  }

  /** Within a bucket the badges keep their input order. */
  lemma GroupsKeepInputOrder(badges: seq<Badge>, groups: map<string, seq<Badge>>, t: string)
    requires IsGrouping(badges, groups)
    requires t in groups
    ensures IsSubsequence(groups[t], badges)
  {
    FilterIsSubsequence(badges, OfType(t));
  }

  // ---------------------------------------------------------------- group sizes

  /** Some key of a non-empty set; the same one whatever is being summed. */
  ghost function PickKey(keys: set<string>): (k: string)
    requires keys != {}
    ensures k in keys
  {
    var k :| k in keys; k
  }

  /** The sum of `f` over a finite set of keys. */
  ghost function SumOver(keys: set<string>, f: string -> nat): nat
    decreases keys
  {
    if keys == {} then 0 else var k := PickKey(keys); f(k) + SumOver(keys - {k}, f)
  }

  /** Adding one to `f` at a single key adds one to the sum when that key is summed over. */
  lemma {:induction false} SumOverBump(keys: set<string>, f: string -> nat, g: string -> nat, x: string)
    requires forall k :: g(k) == f(k) + (if k == x then 1 else 0)
    ensures SumOver(keys, g) == SumOver(keys, f) + (if x in keys then 1 else 0)
    decreases keys
  {
    if keys != {} {
      var k := PickKey(keys);
      SumOverBump(keys - {k}, f, g, x);
    }
  }

  lemma {:induction false} SumOverZero(keys: set<string>, f: string -> nat)
    requires forall k :: f(k) == 0
    ensures SumOver(keys, f) == 0
    decreases keys
  {
    if keys != {} {
      SumOverZero(keys - {PickKey(keys)}, f);
    }
  }

  /** The size of each type's share of `badges`. */
  function TypeCount(badges: seq<Badge>): string -> nat {
    t => |Filter(badges, OfType(t))|
  }

  /** Summed over a set of types covering every badge, the per-type counts add up to the number of badges. */
  lemma {:induction false} TypeCountsAddUp(badges: seq<Badge>, types: set<string>)
    requires forall k :: 0 <= k < |badges| ==> BadgeTypeLabel(badges[k]) in types
    ensures SumOver(types, TypeCount(badges)) == |badges|
    decreases |badges|
  {
    if badges == [] {
      SumOverZero(types, TypeCount(badges));
    } else {
      var init, last := badges[..|badges| - 1], badges[|badges| - 1];
      assert badges == init + [last];
      TypeCountsAddUp(init, types);
      forall t ensures TypeCount(badges)(t) == TypeCount(init)(t) + (if t == BadgeTypeLabel(last) then 1 else 0) {
        FilterAppend(init, [last], OfType(t));
      }
      SumOverBump(types, TypeCount(init), TypeCount(badges), BadgeTypeLabel(last));
    }
  }

  function GroupSize(groups: map<string, seq<Badge>>): string -> nat {
    t => if t in groups then |groups[t]| else 0
  }

  lemma {:induction false} SumOverAgree(keys: set<string>, f: string -> nat, g: string -> nat)
    requires forall k :: k in keys ==> f(k) == g(k)
    ensures SumOver(keys, f) == SumOver(keys, g)
    decreases keys
  {
    if keys != {} {
      var k := PickKey(keys);
      SumOverAgree(keys - {k}, f, g);
    }
  }

  /** The bucket sizes add up to the number of input badges: nothing is lost or duplicated. */
  lemma GroupSizesAddUp(badges: seq<Badge>, groups: map<string, seq<Badge>>)
    requires IsGrouping(badges, groups)
    ensures SumOver(groups.Keys, GroupSize(groups)) == |badges|
  {
    forall k | 0 <= k < |badges| ensures BadgeTypeLabel(badges[k]) in groups.Keys {
      assert badges[k] in badges;
    }
    TypeCountsAddUp(badges, groups.Keys);
    SumOverAgree(groups.Keys, GroupSize(groups), TypeCount(badges));
  }

  // ---------------------------------------------------------------- sections

  /** One rendered section: the heading type and its badges. */
  datatype Section = Section(badgeType: string, badges: seq<Badge>)

  /** `order.map(type => …)`, skipping a type whose bucket is missing or empty. */
  function SectionsFor(order: seq<string>, groups: map<string, seq<Badge>>): (sections: seq<Section>)
    ensures |sections| <= |order|
    ensures forall k :: 0 <= k < |sections| ==> sections[k].badges != []
    ensures forall k :: 0 <= k < |sections| ==> sections[k].badgeType in order
    ensures forall k :: 0 <= k < |sections| ==>
      (sections[k].badgeType in groups && sections[k].badges == groups[sections[k].badgeType])
  {
    if order == [] then []
    else
      var t := order[0];
      var bucket := if t in groups then groups[t] else [];
      (if bucket != [] then [Section(t, bucket)] else []) + SectionsFor(order[1..], groups)
  }

  /** The sections of the grid. */
  function Sections(groups: map<string, seq<Badge>>): seq<Section> {
    SectionsFor(BadgeOrder, groups)
  }

  /** The heading of a section. */
  function Heading(s: Section): string {
    s.badgeType + " Badges"
  }

  /** The heading types of a list of sections, in order. */
  function SectionTypes(sections: seq<Section>): seq<string> {
    seq(|sections|, k requires 0 <= k < |sections| => sections[k].badgeType)
  }

  /** The section types are a subsequence of the given order. */
  lemma {:induction false} SectionsFollowOrder(order: seq<string>, groups: map<string, seq<Badge>>)
    ensures IsSubsequence(SectionTypes(SectionsFor(order, groups)), order)
  {
    if order != [] {
      var t := order[0];
      var bucket := if t in groups then groups[t] else [];
      var rest := SectionsFor(order[1..], groups);
      SectionsFollowOrder(order[1..], groups);
      if bucket != [] {
        assert SectionsFor(order, groups) == [Section(t, bucket)] + rest;
        assert SectionTypes(SectionsFor(order, groups))[1..] == SectionTypes(rest);
      } else {
        assert SectionsFor(order, groups) == rest;
      }
    }
  }

  /** The grid's sections appear in the order Company Team, Achievement, Expertise. */
  lemma SectionsInFixedOrder(groups: map<string, seq<Badge>>)
    ensures IsSubsequence(SectionTypes(Sections(groups)), BadgeOrder)
  {
    SectionsFollowOrder(BadgeOrder, groups);
  }

  /** Every section is headed "Company Team Badges", "Achievement Badges" or "Expertise Badges". */
  lemma SectionHeadings(groups: map<string, seq<Badge>>, k: nat)
    requires k < |Sections(groups)|
    ensures Heading(Sections(groups)[k]) in ["Company Team Badges", "Achievement Badges", "Expertise Badges"]
  {
    var t := Sections(groups)[k].badgeType;
    assert t in BadgeOrder;
    assert t == "Company Team" || t == "Achievement" || t == "Expertise";
    assert Heading(Sections(groups)[k]) == t + " Badges";
    if t == "Company Team" {
      assert t + " Badges" == "Company Team Badges";
    } else if t == "Achievement" {
      assert t + " Badges" == "Achievement Badges";
    } else {
      assert t + " Badges" == "Expertise Badges";
    }
  }

  /**
   * A badge is rendered exactly when its displayed type is one of the three
   * known types: badges of any other type are grouped but never shown.
   */
  lemma RenderedIffKnownType(badges: seq<Badge>, groups: map<string, seq<Badge>>, b: Badge)
    requires IsGrouping(badges, groups)
    ensures (exists k :: 0 <= k < |Sections(groups)| && b in Sections(groups)[k].badges)
      <==> b in badges && BadgeTypeLabel(b) in BadgeOrder
  {
    var s := Sections(groups);
    if exists k :: 0 <= k < |s| && b in s[k].badges {
      var k :| 0 <= k < |s| && b in s[k].badges;
      var t := s[k].badgeType;
      FilterMembership(badges, OfType(t), b);
    }
    if b in badges && BadgeTypeLabel(b) in BadgeOrder {
      var t := BadgeTypeLabel(b);
      EachBadgeInExactlyOneGroup(badges, groups, b);
      var j := SectionIndexOf(BadgeOrder, groups, t);
      assert b in s[j].badges;
    }
  }

  /** Where a type with a non-empty bucket appears among the sections. */
  lemma {:induction false} SectionIndexOf(order: seq<string>, groups: map<string, seq<Badge>>, t: string)
      returns (j: nat)
    requires t in order && t in groups && groups[t] != []
    ensures j < |SectionsFor(order, groups)| && SectionsFor(order, groups)[j].badgeType == t
  {
    var head := if order[0] in groups && groups[order[0]] != [] then [Section(order[0], groups[order[0]])] else [];
    var rest := SectionsFor(order[1..], groups);
    assert SectionsFor(order, groups) == head + rest;
    if order[0] == t {
      j := 0;
    } else {
      assert t in order[1..];
      var i := SectionIndexOf(order[1..], groups, t);
      j := |head| + i;
      assert (head + rest)[j] == rest[i];
    }
  }
}
