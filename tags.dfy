/**
 * The comma-separated tag strings shown as chips by `components/QuestionCard.tsx`
 * (a question's `tags`) and `components/UserCard.tsx` (a user's
 * `expertise_tags`): `value?.split(',').map(tag => tag.trim()) || []`, of which
 * the first three are shown followed by a "+N" overflow counter.
 */
module Tags {
  import opened Wrappers
  import opened Strings
  import opened Sequences

  /** The tag list of an optional tag string; an absent string gives no tags, an empty one a single empty tag. */
  function ParseTags(tags: Option<string>): (parsed: seq<string>)
    ensures tags.None? ==> parsed == []
    ensures tags.Some? ==>
      |parsed| == |Split(tags.value, ',')|
      && forall k :: 0 <= k < |parsed| ==> parsed[k] == Trim(Split(tags.value, ',')[k])
    ensures forall k :: 0 <= k < |parsed| ==> ',' !in parsed[k] && IsTrimmed(parsed[k])
  {
    if tags.None? then []
    else
      var pieces := Split(tags.value, ',');
      SplitPiecesFree(tags.value, ',');
      TrimmedPiecesKeepOut(pieces, ',');
      seq(|pieces|, k requires 0 <= k < |pieces| => Trim(pieces[k]))
  }

  /** A present tag string has one more tag than it has commas. */
  lemma TagsCountCommas(tags: string)
    ensures |ParseTags(Some(tags))| == Count(tags, ',') + 1
  {
    SplitCount(tags, ',');
  }

  /** A character that no piece contains is not in any trimmed piece either. */
  lemma TrimmedPiecesKeepOut(pieces: seq<string>, c: char)
    ensures forall k :: 0 <= k < |pieces| && c !in pieces[k] ==> c !in Trim(pieces[k])
  {
    forall k | 0 <= k < |pieces| && c !in pieces[k] ensures c !in Trim(pieces[k]) {
      TrimChars(pieces[k]);
    }
  }

  /** Parsing a comma-joined list of trimmed, comma-free tags gives the list back. */
  lemma ParseJoinedTags(tags: seq<string>)
    requires |tags| >= 1
    requires forall k :: 0 <= k < |tags| ==> ',' !in tags[k] && IsTrimmed(tags[k])
    ensures ParseTags(Some(Join(tags, ','))) == tags
  {
    SplitJoin(tags, ',');
    forall k | 0 <= k < |tags| ensures Trim(tags[k]) == tags[k] {
      TrimTrimmed(tags[k]);
    }
  }

  /** Two tags typed with a space after the comma, as in "react, hooks", come out without the space. */
  lemma SpacedTagsTrimmed(a: string, b: string)
    requires ',' !in a && ',' !in b && IsTrimmed(a) && IsTrimmed(b)
    ensures ParseTags(Some(a + ", " + b)) == [a, b]
  {
    var typed := a + ", " + b;
    var pieces := [a, " " + b];
    assert Split(typed, ',') == pieces by {
      SplitAtCommaSpace(a, b);
    }
    assert Trim(pieces[0]) == a && Trim(pieces[1]) == b by {
      TrimTrimmed(a);
      TrimLeadingSpace(b);
    }
    var parsed := ParseTags(Some(typed));
    assert |parsed| == 2 && parsed[0] == a && parsed[1] == b;
  }

  /** A comma and a space between two comma-free strings split them apart, the space staying with the second. */
  lemma SplitAtCommaSpace(a: string, b: string)
    requires ',' !in a && ',' !in b
    ensures Split(a + ", " + b, ',') == [a, " " + b]
  {
    assert a + ", " + b == Join([a, " " + b], ',');
    SplitJoin([a, " " + b], ',');
  }

  /** One space before a trimmed string is trimmed away. */
  lemma TrimLeadingSpace(b: string)
    requires IsTrimmed(b)
    ensures Trim(" " + b) == b
  {
    var s := " " + b;
    assert s != [] && IsWhitespace(s[0]) && s[1..] == b;
    assert TrimStart(s) == TrimStart(b);
    TrimTrimmed(b);
    assert Trim(s) == TrimEnd(TrimStart(s));
  }

  /** A present but empty tag string still yields one (empty) tag, so its chip block is shown. */
  lemma EmptyStringIsOneTag()
    ensures ParseTags(Some("")) == [""]
  {
    assert Split("", ',') == [""];
  }

  /** How many chips are shown before the overflow counter. */
  const MaxShown: nat := 3

  /** `tags.slice(0, 3)`. */
  function ShownTags(tags: seq<string>): (shown: seq<string>)
    ensures |shown| == if |tags| <= MaxShown then |tags| else MaxShown
    ensures shown == tags[..|shown|]
  {
    Take(tags, MaxShown)
  }

  /** The number on the overflow counter, present exactly when more than three tags exist. */
  function HiddenCount(tags: seq<string>): (n: Option<nat>)
    ensures n.Some? <==> |tags| > MaxShown
    ensures n.Some? ==> n.value > 0
  {
    if |tags| > MaxShown then Some(|tags| - MaxShown) else None
  }

  /** The chips shown and the overflow number together account for every tag. */
  lemma ShownPlusHiddenIsAll(tags: seq<string>)
    ensures |ShownTags(tags)| + HiddenCount(tags).GetOr(0) == |tags|
    ensures HiddenCount(tags).None? ==> ShownTags(tags) == tags
  {
  }

  /** The counter's text: "+N" followed by a component-specific suffix. */
  function OverflowLabel(tags: seq<string>, suffix: string): (counter: Option<string>)
    ensures counter.Some? <==> |tags| > MaxShown
    ensures counter.Some? ==> counter.value == "+" + NatToString(|tags| - MaxShown) + suffix
  {
    match HiddenCount(tags)
    case None => None
    case Some(n) => Some("+" + NatToString(n) + suffix)
  }

  /** `tags.length > 0 &&`: the chip block is rendered when there is at least one tag. */
  predicate ChipsShown(tags: seq<string>) {
    |tags| > 0
  }

  /** The chip block is shown for every present tag string, and only then. */
  lemma ChipsShownIffPresent(tags: Option<string>)
    ensures ChipsShown(ParseTags(tags)) <==> tags.Some?
  {
  }
}
