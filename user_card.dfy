/**
 * `components/UserCard.tsx`: the values a user card derives from a user
 * (reputation and bio defaults, expertise chips, the website link and its
 * text, and which optional rows appear).
 */
module UserCard {
  import opened Wrappers
  import opened Types
  import opened Strings
  import Tags
  import UserAvatar

  /** `user.metadata?.reputation_score || 0`. */
  function Reputation(u: User): (reputation: int)
    ensures u.meta.reputationScore.None? ==> reputation == 0
    ensures u.meta.reputationScore.Some? ==> reputation == u.meta.reputationScore.value
  {
    u.meta.reputationScore.GetOr(0)
  }

  /** `user.metadata?.bio || ''`. */
  function Bio(u: User): (bio: string)
    ensures u.meta.bio.None? ==> bio == ""
    ensures u.meta.bio.Some? ==> bio == u.meta.bio.value
  {
    u.meta.bio.GetOr("")
  }

  /** The user's expertise tags. */
  function ExpertiseTags(u: User): seq<string> {
    Tags.ParseTags(u.meta.expertiseTags)
  }

  /** `website.startsWith('http') ? website : \`https://${website}\``. */
  function Href(website: string): (href: string)
    ensures StartsWith(href, "http")
    ensures StartsWith(website, "http") ==> href == website
    ensures !StartsWith(website, "http") ==> href == "https://" + website
  {
    if StartsWith(website, "http") then website
    else
      assert ("https://" + website)[..4] == "http";
      "https://" + website
  }

  /** `website.replace(/^https?:\/\//, '')`: one leading scheme is dropped. */
  function DisplayWebsite(website: string): (text: string)
    ensures |text| <= |website| && text == website[|website| - |text|..]
    ensures StartsWith(website, "https://") ==> text == website[8..]
    ensures StartsWith(website, "http://") ==> text == website[7..]
    ensures !StartsWith(website, "https://") && !StartsWith(website, "http://") ==> text == website
  {
    if StartsWith(website, "https://") then
      assert website[4] == "https://"[4] != "http://"[4];
      website[8..]
    else if StartsWith(website, "http://") then website[7..]
    else website
  }

  /** The displayed text is the address with its scheme removed, whichever of the two schemes it had. */
  lemma DisplayDropsScheme(address: string)
    ensures DisplayWebsite("https://" + address) == address
    ensures DisplayWebsite("http://" + address) == address
  {
    assert ("https://" + address)[..8] == "https://";
    assert ("https://" + address)[8..] == address;
    assert ("http://" + address)[..7] == "http://";
    assert ("http://" + address)[7..] == address;
    assert "http://"[4] != "https://"[4];
    assert !StartsWith("http://" + address, "https://");
  }

  /**
   * The link and its text agree: a website given without a scheme is linked
   * over https and displayed as entered.
   */
  lemma LinkAndTextAgree(website: string)
    requires !StartsWith(website, "http")
    ensures Href(website) == "https://" + website
    ensures DisplayWebsite(website) == website
    ensures DisplayWebsite(Href(website)) == website
  {
    DisplayDropsScheme(website);
    assert StartsWith("https://", "http") && StartsWith("http://", "http");
    if StartsWith(website, "https://") {
      StartsWithPrefix(website, "https://", "http");
      assert false;
    }
    if StartsWith(website, "http://") {
      StartsWithPrefix(website, "http://", "http");
      assert false;
    }
  }

  /** The website row: where it links and what it says. */
  datatype WebsiteLink = WebsiteLink(href: string, text: string)

  /** Everything the card shows. */
  datatype Card = Card(
    name: string,
    username: string,
    reputation: int,
    companyRole: Option<string>,
    bio: Option<string>,
    chips: seq<string>,
    overflow: Option<string>,
    location: Option<string>,
    website: Option<WebsiteLink>,
    joinDate: Option<string>)

  /** A present, non-empty optional field, as the `{field && …}` rows test it. */
  function Present(field: Option<string>): (row: Option<string>)
    ensures row.Some? <==> field.Some? && field.value != ""
    ensures row.Some? ==> row.value == field.value
  {
    if field.Some? && field.value != "" then field else None
  }

  /** The card for a user. */
  function Render(u: User): (card: Card)
    ensures card.name == UserAvatar.DisplayName(u)
    ensures card.reputation == Reputation(u)
    ensures card.location.Some? <==> u.meta.location.Some? && u.meta.location.value != ""
    ensures card.website.Some? <==> u.meta.website.Some? && u.meta.website.value != ""
    ensures card.website.Some? ==>
      (StartsWith(card.website.value.href, "http")
       && card.website.value.href == Href(u.meta.website.value)
       && card.website.value.text == DisplayWebsite(u.meta.website.value))
    ensures card.joinDate.Some? <==> u.meta.joinDate != ""
    ensures card.joinDate.Some? ==> card.joinDate.value == u.meta.joinDate
    ensures card.bio.Some? <==> Bio(u) != ""
    ensures card.username == u.meta.username
    ensures card.companyRole == Present(u.meta.companyRole)
    ensures card.bio.Some? ==> card.bio.value == Bio(u)
    ensures card.location.Some? ==> card.location.value == u.meta.location.value
    ensures card.chips == Tags.ShownTags(ExpertiseTags(u))
    ensures card.overflow == Tags.OverflowLabel(ExpertiseTags(u), "")
  {
    var tags := ExpertiseTags(u);
    var site := Present(u.meta.website);
    Card(
      UserAvatar.DisplayName(u),
      u.meta.username,
      Reputation(u),
      Present(u.meta.companyRole),
      if Bio(u) != "" then Some(Bio(u)) else None,
      Tags.ShownTags(tags),
      Tags.OverflowLabel(tags, ""),
      Present(u.meta.location),
      if site.Some? then Some(WebsiteLink(Href(site.value), DisplayWebsite(site.value))) else None,
      if u.meta.joinDate != "" then Some(u.meta.joinDate) else None)
  }

  /** A user with no reputation, bio or optional rows shows reputation 0 and only the name block. */
  lemma BareUserCard(u: User)
    requires u.meta.reputationScore.None? && u.meta.bio.None?
    requires u.meta.location.None? && u.meta.website.None? && u.meta.companyRole.None? && u.meta.joinDate == ""
    ensures Render(u).reputation == 0
    ensures Render(u).bio.None? && Render(u).location.None? && Render(u).website.None?
    ensures Render(u).companyRole.None? && Render(u).joinDate.None?
  {
  }
}
