/**
 * `components/UserAvatar.tsx`: the name a user is shown under, the initials
 * drawn when there is no avatar image, and the four sizes.
 */
module UserAvatar {
  import opened Wrappers
  import opened Types
  import opened Strings
  import opened Sequences

  /** `user.metadata?.name || user.title`. */
  function DisplayName(u: User): (name: string)
    ensures u.meta.name != "" ==> name == u.meta.name
    ensures u.meta.name == "" ==> name == u.header.title
  {
    if u.meta.name != "" then u.meta.name else u.header.title
  }

  /** `word[0]`, which `join('')` renders as "" for an empty word. */
  function Head(word: string): (head: string)
    ensures |head| <= 1
    ensures |head| <= |word| && head == word[..|head|]
  {
    if word == "" then "" else [word[0]]
  }

  /** `.map(word => word[0]).join('')`. */
  function WordHeads(words: seq<string>): (heads: string)
    ensures |heads| <= |words|
  {
    if words == [] then "" else Head(words[0]) + WordHeads(words[1..])
  }

  /** `name.split(' ').map(word => word[0]).join('').substring(0, 2).toUpperCase()`. */
  function Initials(name: string): (initials: string)
    ensures |initials| <= 2
    ensures forall i :: 0 <= i < |initials| ==> !IsAsciiLower(initials[i])
  {
    ToUpper(Take(WordHeads(Split(name, ' ')), 2))
  }

  /**
   * The characters of `s` that start a word: those that are not a space and
   * come first or right after a space. `atStart` says whether the preceding
   * character was a space (or there was none).
   */
  function WordStarts(s: string, atStart: bool): string {
    if s == [] then ""
    else (if atStart && s[0] != ' ' then [s[0]] else []) + WordStarts(s[1..], s[0] == ' ')
  }

  /**
   * Taking the first character of every piece between spaces collects exactly
   * the word-start characters; the empty pieces between repeated spaces add
   * nothing. The second clause is the same fact for the pieces after the first.
   */
  lemma {:induction false} HeadsAreWordStarts(s: string)
    ensures WordHeads(Split(s, ' ')) == WordStarts(s, true)
    ensures WordHeads(Split(s, ' ')[1..]) == WordStarts(s, false)
  {
    if s == [] {
      assert Split(s, ' ') == [""];
    } else {
      var rest := Split(s[1..], ' ');
      HeadsAreWordStarts(s[1..]);
      if s[0] == ' ' {
        assert Split(s, ' ') == [""] + rest;
        assert ([""] + rest)[1..] == rest;
      } else {
        var pieces := [[s[0]] + rest[0]] + rest[1..];
        assert Split(s, ' ') == pieces;
        assert pieces[1..] == rest[1..];
        assert Head(pieces[0]) == [s[0]];
      }
    }
  }

  /** The initials are the first two word-start characters of the name, uppercased. */
  lemma InitialsMeaning(name: string)
    ensures Initials(name) == ToUpper(Take(WordStarts(name, true), 2))
  {
    HeadsAreWordStarts(name);
  }

  /** Two words separated by a run of spaces give the upper-cased first letter of each. */
  lemma TwoWordInitials(first: string, spaces: string, second: string)
    requires first != "" && second != "" && ' ' !in first && ' ' !in second
    requires |spaces| >= 1 && forall i :: 0 <= i < |spaces| ==> spaces[i] == ' '
    ensures Initials(first + spaces + second) == ToUpper([first[0], second[0]])
  {
    var s := first + spaces + second;
    assert s == first + (spaces + second);
    WordStartsInsideWord(first, true);
    WordStartsOfSpaces(spaces, second);
    WordStartsAppend(first, spaces + second, true);
    var starts := WordStarts(s, true);
    assert starts == [first[0], second[0]];
    InitialsMeaning(s);
    assert Take(starts, 2) == starts;
  }

  /** A word without spaces contributes its first character, and only when a word starts there. */
  lemma {:induction false} WordStartsInsideWord(w: string, atStart: bool)
    requires w != "" && ' ' !in w
    ensures WordStarts(w, atStart) == if atStart then [w[0]] else []
    ensures LastIsSpace(w) == false
  {
    if |w| > 1 {
      WordStartsInsideWord(w[1..], false);
    } else {
      assert w[1..] == [];
    }
  }

  /** Whether the last character of `s` is a space; what `WordStarts` carries forward. */
  function LastIsSpace(s: string): bool {
    s != [] && s[|s| - 1] == ' '
  }

  /** The word starts of a concatenation: the second part is scanned with the state the first left behind. */
  lemma {:induction false} WordStartsAppend(a: string, b: string, atStart: bool)
    ensures WordStarts(a + b, atStart) == WordStarts(a, atStart) + WordStarts(b, if a == [] then atStart else LastIsSpace(a))
    decreases |a|
  {
    if a != [] {
      var first := if atStart && a[0] != ' ' then [a[0]] else [];
      assert WordStarts(a + b, atStart) == first + WordStarts(a[1..] + b, a[0] == ' ') by {
        assert (a + b)[1..] == a[1..] + b;
        assert (a + b)[0] == a[0];
      }
      WordStartsAppend(a[1..], b, a[0] == ' ');
      if a[1..] != [] {
        assert a[1..][|a[1..]| - 1] == a[|a| - 1];
      }
    } else {
      assert a + b == b;
    }
  }

  /** A run of spaces followed by a word contributes the word's first character. */
  lemma WordStartsOfSpaces(spaces: string, w: string)
    requires |spaces| >= 1 && forall i :: 0 <= i < |spaces| ==> spaces[i] == ' '
    requires w != "" && ' ' !in w
    ensures WordStarts(spaces + w, false) == [w[0]]
  {
    AllSpaces(spaces, false);
    WordStartsAppend(spaces, w, false);
    WordStartsInsideWord(w, true);
  }

  lemma {:induction false} AllSpaces(spaces: string, atStart: bool)
    requires forall i :: 0 <= i < |spaces| ==> spaces[i] == ' '
    ensures WordStarts(spaces, atStart) == ""
    ensures spaces != [] ==> LastIsSpace(spaces)
  {
    if spaces != [] {
      AllSpaces(spaces[1..], true);
    }
  }

  // ---------------------------------------------------------------- sizes

  datatype Size = Small | Medium | Large | ExtraLarge

  /** `size = 'md'`: the default when no size is passed. */
  function SizeOf(size: Option<Size>): (s: Size)
    ensures size.None? ==> s == Medium
    ensures size.Some? ==> s == size.value
  {
    size.GetOr(Medium)
  }

  /** The Tailwind width/height step of each size, as written in its classes (`w-8`, `w-10`, `w-16`, `w-24`). */
  function StepText(s: Size): (text: string)
    ensures forall i :: 0 <= i < |text| ==> IsDigit(text[i])
  {
    match s
    case Small => "8"
    case Medium => "10"
    case Large => "16"
    case ExtraLarge => "24"
  }

  /** `sizeClasses[size]`: a square of the size's step plus a text size. */
  function SizeClasses(s: Size): string {
    var textSize := match s
      case Small => "text-xs"
      case Medium => "text-sm"
      case Large => "text-lg"
      case ExtraLarge => "text-2xl";
    "w-" + StepText(s) + " h-" + StepText(s) + " " + textSize
  }

  /** The `width`/`height` attribute of the avatar image. */
  function Pixels(s: Size): (px: nat)
    ensures px == 32 || px == 40 || px == 64 || px == 96
  {
    if s == Small then 32 else if s == Medium then 40 else if s == Large then 64 else 96
  }

  /**
   * The pixel size agrees with the CSS classes: the image is `4 * N` pixels
   * for the class step `w-N h-N` (one Tailwind step is 4px). Larger sizes
   * are strictly larger.
   */
  lemma PixelsMatchClasses(s: Size)
    ensures Pixels(s) == 4 * ParseNat(StepText(s))
    ensures Pixels(Small) < Pixels(Medium) < Pixels(Large) < Pixels(ExtraLarge)
  {
    match s
    case Small =>
      assert ParseNat("8") == 8;
    case Medium =>
      assert "10"[..1] == "1";
      assert ParseNat("10") == 10;
    case Large =>
      assert "16"[..1] == "1";
      assert ParseNat("16") == 16;
    case ExtraLarge =>
      assert "24"[..1] == "2";
      assert ParseNat("24") == 24;
  }

  // ---------------------------------------------------------------- rendering

  /** The query the avatar appends to the image's address: a 120 by 120 crop. */
  const ImageQuery: string := "?w=120&h=120&fit=crop&auto=format,compress"

  /** What is drawn: the avatar image, or a circle with the initials. */
  datatype Avatar = Photo(src: string, alt: string, width: nat) | Initialled(text: string, classes: string)

  /** The avatar for a user at a size. */
  function Render(u: User, size: Option<Size>): (a: Avatar)
    ensures a.Photo? <==> u.meta.avatar.Some? && u.meta.avatar.value.imgixUrl != ""
    ensures a.Photo? ==>
      (a.width == Pixels(SizeOf(size)) && a.alt == DisplayName(u) && a.src == u.meta.avatar.value.imgixUrl + ImageQuery)
    ensures a.Initialled? ==>
      (a.text == Initials(DisplayName(u)) && StartsWith(a.classes, SizeClasses(SizeOf(size))))
  {
    var s := SizeOf(size);
    if u.meta.avatar.Some? && u.meta.avatar.value.imgixUrl != "" then
      var url := u.meta.avatar.value.imgixUrl;
      Photo(url + ImageQuery, DisplayName(u), Pixels(s))
    else
      var classes := SizeClasses(s) + " rounded-full bg-blue-600 text-white font-medium flex items-center justify-center";
      assert classes[..|SizeClasses(s)|] == SizeClasses(s);
      Initialled(Initials(DisplayName(u)), classes)
  }
}
