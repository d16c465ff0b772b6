/**
 * `components/SignupForm.tsx`: the client side of signing up. The form's
 * state (the ten inputs, the error map and the loading and success flags) is
 * a class. `ValidateForm` fills the error map field by field, `HandleInputChange`
 * edits one input, and `HandleSubmit` validates, builds the request body and
 * posts it to the signup handler of `SignupRoute`.
 *
 * The regular expressions of the validator are stated as predicates over
 * positions. The current date of `join_date` is the parameter `today`.
 */
module SignupForm {
  import opened Wrappers
  import opened Strings
  import opened Js
  import SignupRoute

  /** The ten inputs' contents; the optional ones start, and stay, as strings. */
  datatype SignupFormData = SignupFormData(
    name: string,
    username: string,
    email: string,
    password: string,
    confirmPassword: string,
    bio: string,
    companyRole: string,
    location: string,
    website: string,
    expertiseTags: string)

  const Initial: SignupFormData := SignupFormData("", "", "", "", "", "", "", "", "", "")

  /** The inputs. */
  datatype Field = Name | Username | Email | Password | ConfirmPassword | Bio | CompanyRole | Location | Website | ExpertiseTags

  /** The input's `name` attribute, which is also its key in the error map. */
  function Key(f: Field): string {
    match f
    case Name => "name"
    case Username => "username"
    case Email => "email"
    case Password => "password"
    case ConfirmPassword => "confirmPassword"
    case Bio => "bio"
    case CompanyRole => "companyRole"
    case Location => "location"
    case Website => "website"
    case ExpertiseTags => "expertiseTags"
  }

  /**
   * A key of the error map: an input's field, standing for its `name`
   * attribute `Key(field)`, or the `submit` key of a failed request.
   */
  datatype ErrorKey = On(field: Field) | Submit

  function FieldValue(d: SignupFormData, f: Field): string {
    match f
    case Name => d.name
    case Username => d.username
    case Email => d.email
    case Password => d.password
    case ConfirmPassword => d.confirmPassword
    case Bio => d.bio
    case CompanyRole => d.companyRole
    case Location => d.location
    case Website => d.website
    case ExpertiseTags => d.expertiseTags
  }

  /** `{ ...prev, [name]: value }`. */
  function WithField(d: SignupFormData, f: Field, value: string): (updated: SignupFormData)
    ensures FieldValue(updated, f) == value
    ensures forall g :: g != f ==> FieldValue(updated, g) == FieldValue(d, g)
  {
    match f
    case Name => d.(name := value)
    case Username => d.(username := value)
    case Email => d.(email := value)
    case Password => d.(password := value)
    case ConfirmPassword => d.(confirmPassword := value)
    case Bio => d.(bio := value)
    case CompanyRole => d.(companyRole := value)
    case Location => d.(location := value)
    case Website => d.(website := value)
    case ExpertiseTags => d.(expertiseTags := value)
  }

  // ---------------------------------------------------------------- patterns

  /** A character of the class `[a-zA-Z0-9_]`. */
  predicate IsWordChar(c: char) {
    IsAsciiUpper(c) || IsAsciiLower(c) || IsDigit(c) || c == '_'
  }

  /** `/^[a-zA-Z0-9_]+$/`. */
  predicate IsWordString(s: string) {
    s != "" && forall k :: 0 <= k < |s| ==> IsWordChar(s[k])
  }

  /** `s[from..to]` is a non-empty run of the class `[^\s@]`. */
  predicate Segment(s: string, from: int, to: int) {
    0 <= from < to <= |s| && forall k :: from <= k < to ==> !IsWhitespace(s[k]) && s[k] != '@'
  }

  /** `s` splits as `[^\s@]+ @ [^\s@]+ . [^\s@]+` with the `@` at `at` and the dot at `dot`. */
  predicate EmailShape(s: string, at: int, dot: int) {
    && 0 <= at < dot < |s|
    && Segment(s, 0, at) && s[at] == '@'
    && Segment(s, at + 1, dot) && s[dot] == '.'
    && Segment(s, dot + 1, |s|)
  }

  /** `/^[^\s@]+@[^\s@]+\.[^\s@]+$/.test(s)`. */
  predicate MatchesEmail(s: string) {
    exists at, dot :: 0 <= at < dot < |s| && EmailShape(s, at, dot)
  }

  /** A local part, a domain and a final label, none empty and none holding `@` or white space, make an address. */
  lemma EmailFromParts(local: string, domain: string, last: string)
    requires Segment(local, 0, |local|) && Segment(domain, 0, |domain|) && Segment(last, 0, |last|)
    ensures MatchesEmail(local + "@" + domain + "." + last)
  {
    var s := local + "@" + domain + "." + last;
    var at, dot := |local|, |local| + 1 + |domain|;
    assert s[at] == '@' && s[dot] == '.';
    forall k | 0 <= k < at ensures !IsWhitespace(s[k]) && s[k] != '@' {
      assert s[k] == local[k];
    }
    forall k | at + 1 <= k < dot ensures !IsWhitespace(s[k]) && s[k] != '@' {
      assert s[k] == domain[k - at - 1];
    }
    forall k | dot + 1 <= k < |s| ensures !IsWhitespace(s[k]) && s[k] != '@' {
      assert s[k] == last[k - dot - 1];
    }
    assert EmailShape(s, at, dot);
  }

  /**
   * An accepted address has no white space, exactly one `@` that is not its
   * first character, and a dot after the `@` that is neither next to it nor
   * the last character.
   */
  lemma EmailParts(s: string) returns (at: nat, dot: nat)
    requires MatchesEmail(s)
    ensures 0 < at && at + 1 < dot && dot + 1 < |s|
    ensures s[at] == '@' && s[dot] == '.'
    ensures forall k :: 0 <= k < |s| ==> !IsWhitespace(s[k])
    ensures forall k :: 0 <= k < |s| && k != at ==> s[k] != '@'
    ensures !AllWhitespace(s)
  {
    var i, j :| 0 <= i < j < |s| && EmailShape(s, i, j);
    at, dot := i, j;
    forall k | 0 <= k < |s| ensures !IsWhitespace(s[k]) && (k != at ==> s[k] != '@') {
      if k < at || at < k < dot || dot < k {
      } else {
        assert k == at || k == dot;
      }
    }
  }

  /** An accepted address is not blank. */
  lemma EmailNotBlank(s: string)
    ensures MatchesEmail(s) ==> !AllWhitespace(s)
  {
    if MatchesEmail(s) {
      var _, _ := EmailParts(s);
    }
  }

  /** A character that the regular-expression `.` does not match. */
  predicate IsLineTerminator(c: char) {
    c == '\n' || c == '\r' || c == '\U{2028}' || c == '\U{2029}'
  }

  /** `/^https?:\/\/.+/.test(s)`: a scheme and at least one character of the same line after it. */
  predicate MatchesUrl(s: string) {
    || (StartsWith(s, "http://") && |s| > 7 && !IsLineTerminator(s[7]))
    || (StartsWith(s, "https://") && |s| > 8 && !IsLineTerminator(s[8]))
  }

  /** A scheme followed by an address on one line is accepted, with either scheme. */
  lemma UrlWithScheme(address: string)
    requires address != "" && !IsLineTerminator(address[0])
    ensures MatchesUrl("http://" + address) && MatchesUrl("https://" + address)
    ensures !MatchesUrl("http://") && !MatchesUrl("https://")
    ensures !StartsWith(address, "http") ==> !MatchesUrl(address)
  {
    assert "https://"[4] != "http://"[4];
    assert ("http://" + address)[..7] == "http://" && ("http://" + address)[7] == address[0];
    assert ("https://" + address)[..8] == "https://" && ("https://" + address)[8] == address[0];
    if !StartsWith(address, "http") {
      assert StartsWith("http://", "http") && StartsWith("https://", "http");
      if StartsWith(address, "http://") {
        StartsWithPrefix(address, "http://", "http");
      }
      if StartsWith(address, "https://") {
        StartsWithPrefix(address, "https://", "http");
      }
    }
  }

  // ---------------------------------------------------------------- field rules

  const NameRequired: string := "Name is required"
  const UsernameRequired: string := "Username is required"
  const UsernameTooShort: string := "Username must be at least 3 characters"
  const UsernameBadChars: string := "Username can only contain letters, numbers, and underscores"
  const EmailRequired: string := "Email is required"
  const EmailInvalid: string := "Please enter a valid email address"
  const PasswordRequired: string := "Password is required"
  const PasswordTooShort: string := "Password must be at least 8 characters"
  const PasswordsDiffer: string := "Passwords do not match"
  const BioTooLong: string := "Bio must be less than 500 characters"
  const WebsiteInvalid: string := "Website must be a valid URL (include http:// or https://)"

  const MinUsernameLength: nat := 3
  const MinPasswordLength: nat := 8
  const MaxBioLength: nat := 500

  // `!x.trim()` holds exactly when `x` is blank, by the contract of
  // `Strings.Trim`, so the rules below test `AllWhitespace` for it.

  /** The rule for the name. */
  function NameError(name: string): Option<string> {
    if AllWhitespace(name) then Some(NameRequired) else None
  }

  /** The name is rejected exactly when it is blank. */
  lemma NameRule(name: string)
    ensures NameError(name).Some? <==> AllWhitespace(name)
    ensures NameError(name).Some? ==> NameError(name).value == NameRequired
  {
  }

  /** The rules for the username, in the order they are tried. */
  function UsernameError(username: string): Option<string> {
    if AllWhitespace(username) then Some(UsernameRequired)
    else if |username| < MinUsernameLength then Some(UsernameTooShort)
    else if !IsWordString(username) then Some(UsernameBadChars)
    else None
  }

  /** At most one username error, the first rule that fails; a username passes exactly when it is three or more word characters. */
  lemma UsernameRule(username: string)
    ensures UsernameError(username) == Some(UsernameRequired) <==> AllWhitespace(username)
    ensures UsernameError(username) == Some(UsernameTooShort) <==> !AllWhitespace(username) && |username| < MinUsernameLength
    ensures UsernameError(username) == Some(UsernameBadChars) <==>
      !AllWhitespace(username) && |username| >= MinUsernameLength && !IsWordString(username)
    ensures UsernameError(username).None? <==> |username| >= MinUsernameLength && IsWordString(username)
  {
    if IsWordString(username) {
      assert !IsWhitespace(username[0]);
    }
  }

  /** The rules for the email address. */
  function EmailError(email: string): Option<string> {
    if AllWhitespace(email) then Some(EmailRequired)
    else if !MatchesEmail(email) then Some(EmailInvalid)
    else None
  }

  /** A blank address is missing, any other one is checked against the pattern, and it passes exactly when it matches. */
  lemma EmailRule(email: string)
    ensures EmailError(email) == Some(EmailRequired) <==> AllWhitespace(email)
    ensures EmailError(email) == Some(EmailInvalid) <==> !AllWhitespace(email) && !MatchesEmail(email)
    ensures EmailError(email).None? <==> MatchesEmail(email)
  {
    EmailNotBlank(email);
  }

  /** The rules for the password. */
  function PasswordError(password: string): Option<string> {
    if password == "" then Some(PasswordRequired)
    else if |password| < MinPasswordLength then Some(PasswordTooShort)
    else None
  }

  /** An empty password is missing, a shorter one than eight characters too short. */
  lemma PasswordRule(password: string)
    ensures PasswordError(password) == Some(PasswordRequired) <==> password == ""
    ensures PasswordError(password) == Some(PasswordTooShort) <==> 0 < |password| < MinPasswordLength
    ensures PasswordError(password).None? <==> |password| >= MinPasswordLength
  {
  }

  /** The confirmation rule, applied whatever the password's own error is. */
  function ConfirmError(password: string, confirmation: string): Option<string> {
    if password != confirmation then Some(PasswordsDiffer) else None
  }

  /** The rule for the bio. */
  function BioError(bio: string): Option<string> {
    if bio != "" && |bio| > MaxBioLength then Some(BioTooLong) else None
  }

  /** A bio is rejected exactly when it is longer than 500 characters, so one of exactly 500 is accepted. */
  lemma BioRule(bio: string)
    ensures BioError(bio).Some? <==> |bio| > MaxBioLength
    ensures |bio| == MaxBioLength ==> BioError(bio).None?
  {
  }

  /** The rule for the website. */
  function WebsiteError(website: string): Option<string> {
    if website != "" && !MatchesUrl(website) then Some(WebsiteInvalid) else None
  }

  /** The error a field gets; the company role, location and expertise tags are never checked. */
  function FieldError(d: SignupFormData, f: Field): Option<string> {
    match f
    case Name => NameError(d.name)
    case Username => UsernameError(d.username)
    case Email => EmailError(d.email)
    case Password => PasswordError(d.password)
    case ConfirmPassword => ConfirmError(d.password, d.confirmPassword)
    case Bio => BioError(d.bio)
    case Website => WebsiteError(d.website)
    case _ => None
  }

  /** `newErrors[key] = error` when there is an error. */
  function Put(errors: map<ErrorKey, string>, key: ErrorKey, error: Option<string>): map<ErrorKey, string> {
    if error.Some? then errors[key := error.value] else errors
  }

  /** The fields `validateForm` checks, in the order it checks them. */
  const Checked: seq<Field> := [Name, Username, Email, Password, ConfirmPassword, Bio, Website]

  /** The error map after checking `fields` one after the other with `check`. */
  function Collect(check: Field -> Option<string>, fields: seq<Field>): map<ErrorKey, string>
    decreases |fields|
  {
    if fields == [] then map[]
    else Put(Collect(check, fields[..|fields| - 1]), On(fields[|fields| - 1]), check(fields[|fields| - 1]))
  }

  /**
   * After checking distinct fields, the map holds under each checked field's
   * key exactly that field's error, and no other key.
   */
  lemma {:induction false} CollectMeaning(check: Field -> Option<string>, fields: seq<Field>)
    requires forall i, j :: 0 <= i < j < |fields| ==> fields[i] != fields[j]
    ensures forall f :: On(f) in Collect(check, fields) <==> f in fields && check(f).Some?
    ensures forall f :: On(f) in Collect(check, fields) ==> Collect(check, fields)[On(f)] == check(f).value
    ensures forall k :: k in Collect(check, fields) ==> exists f :: f in fields && On(f) == k
    ensures Collect(check, fields) == map[] <==> forall f :: f in fields ==> check(f).None?
    decreases |fields|
  {
    if fields != [] {
      var init, last := fields[..|fields| - 1], fields[|fields| - 1];
      CollectMeaning(check, init);
      assert fields == init + [last];
      forall k | k in Collect(check, fields) ensures exists f :: f in fields && On(f) == k {
        if k != On(last) {
          var f :| f in init && On(f) == k;
          assert f in fields;
        }
      }
      if check(last).Some? {
        assert On(last) in Collect(check, fields);
      }
    }
  }

  /** Checking one more field of `Checked` adds that field's error. */
  lemma CollectStep(check: Field -> Option<string>, i: nat)
    requires i < |Checked|
    ensures Collect(check, Checked[..i + 1]) == Put(Collect(check, Checked[..i]), On(Checked[i]), check(Checked[i]))
  {
    assert Checked[..i + 1][..i] == Checked[..i];
  }

  /** A map collected over `Checked` is empty exactly when each of the seven checks passes. */
  lemma CheckedAllPass(check: Field -> Option<string>)
    ensures Collect(check, Checked) == map[] <==>
      && check(Name).None? && check(Username).None? && check(Email).None? && check(Password).None?
      && check(ConfirmPassword).None? && check(Bio).None? && check(Website).None?
  {
    CollectMeaning(check, Checked);
    assert Checked[0] == Name && Checked[1] == Username && Checked[2] == Email && Checked[3] == Password;
    assert Checked[4] == ConfirmPassword && Checked[5] == Bio && Checked[6] == Website;
    forall f | f in Checked
      ensures f == Name || f == Username || f == Email || f == Password || f == ConfirmPassword || f == Bio || f == Website
    {
    }
  }

  /** Collecting over `Checked` puts the seven checks' errors in order. */
  lemma CollectChecked(check: Field -> Option<string>)
    ensures Collect(check, Checked) ==
      Put(Put(Put(Put(Put(Put(Put(map[],
        On(Name), check(Name)), On(Username), check(Username)), On(Email), check(Email)),
        On(Password), check(Password)), On(ConfirmPassword), check(ConfirmPassword)),
        On(Bio), check(Bio)), On(Website), check(Website))
  {
    assert Checked[..7] == Checked;
    CollectStep(check, 6);
    CollectStep(check, 5);
    CollectStep(check, 4);
    CollectStep(check, 3);
    CollectStep(check, 2);
    CollectStep(check, 1);
    CollectStep(check, 0);
  }

  /** The check of each field is that field's rule. */
  lemma CheckOfValues(d: SignupFormData)
    ensures CheckOf(d)(Name) == NameError(d.name)
    ensures CheckOf(d)(Username) == UsernameError(d.username)
    ensures CheckOf(d)(Email) == EmailError(d.email)
    ensures CheckOf(d)(Password) == PasswordError(d.password)
    ensures CheckOf(d)(ConfirmPassword) == ConfirmError(d.password, d.confirmPassword)
    ensures CheckOf(d)(Bio) == BioError(d.bio)
    ensures CheckOf(d)(Website) == WebsiteError(d.website)
  {
    IdentityChecks(d);
    AddressChecks(d);
    PasswordChecks(d);
  }

  lemma IdentityChecks(d: SignupFormData)
    ensures CheckOf(d)(Name) == NameError(d.name)
    ensures CheckOf(d)(Username) == UsernameError(d.username)
  {
  }

  lemma AddressChecks(d: SignupFormData)
    ensures CheckOf(d)(Email) == EmailError(d.email)
    ensures CheckOf(d)(Website) == WebsiteError(d.website)
  {
  }

  lemma PasswordChecks(d: SignupFormData)
    ensures CheckOf(d)(Password) == PasswordError(d.password)
    ensures CheckOf(d)(ConfirmPassword) == ConfirmError(d.password, d.confirmPassword)
    ensures CheckOf(d)(Bio) == BioError(d.bio)
  {
  }

  /** The error map, spelt out field by field in the order the fields are checked. */
  lemma ErrorsInOrder(d: SignupFormData)
    ensures Errors(d) ==
      Put(Put(Put(Put(Put(Put(Put(map[],
        On(Name), NameError(d.name)), On(Username), UsernameError(d.username)), On(Email), EmailError(d.email)),
        On(Password), PasswordError(d.password)), On(ConfirmPassword), ConfirmError(d.password, d.confirmPassword)),
        On(Bio), BioError(d.bio)), On(Website), WebsiteError(d.website))
  {
    CheckOfValues(d);
    CollectChecked(CheckOf(d));
  }

  /** `FieldError` on the form's current contents. */
  function CheckOf(d: SignupFormData): Field -> Option<string> {
    f => FieldError(d, f)
  }

  /** The error map `validateForm` builds. */
  function Errors(d: SignupFormData): map<ErrorKey, string> {
    Collect(CheckOf(d), Checked)
  }

  /** The error map holds, under each field's key, exactly that field's error, and nothing else. */
  lemma ErrorsMeaning(d: SignupFormData)
    ensures forall f :: On(f) in Errors(d) <==> FieldError(d, f).Some?
    ensures forall f :: On(f) in Errors(d) ==> Errors(d)[On(f)] == FieldError(d, f).value
    ensures Submit !in Errors(d)
  {
    CollectMeaning(CheckOf(d), Checked);
    forall f ensures (On(f) in Errors(d) <==> FieldError(d, f).Some?) && (On(f) in Errors(d) ==> Errors(d)[On(f)] == FieldError(d, f).value) {
      UncheckedHaveNoError(d, f);
      assert CheckOf(d)(f) == FieldError(d, f);
    }
  }

  /** The company role, location and expertise tags are never checked. */
  lemma UncheckedHaveNoError(d: SignupFormData, f: Field)
    ensures f !in Checked ==> FieldError(d, f).None?
  {
  }

  /** The rules of the form, field by field, stated positively. */
  predicate NameOk(name: string) { !AllWhitespace(name) }
  predicate UsernameOk(username: string) { |username| >= MinUsernameLength && IsWordString(username) }
  predicate PasswordOk(password: string) { |password| >= MinPasswordLength }
  predicate BioOk(bio: string) { |bio| <= MaxBioLength }
  predicate WebsiteOk(website: string) { website == "" || MatchesUrl(website) }

  /** Every rule of the form. */
  predicate Acceptable(d: SignupFormData) {
    && NameOk(d.name)
    && UsernameOk(d.username)
    && MatchesEmail(d.email)
    && PasswordOk(d.password) && d.password == d.confirmPassword
    && BioOk(d.bio)
    && WebsiteOk(d.website)
  }

  /** The form is valid, its error map empty, exactly when every rule holds. */
  lemma ValidIff(d: SignupFormData)
    ensures Errors(d) == map[] <==> Acceptable(d)
  {
    NoErrorsIff(d);
    NoFieldErrorIff(d);
  }

  /** The error map is empty exactly when none of the checked fields has an error. */
  lemma NoErrorsIff(d: SignupFormData)
    ensures Errors(d) == map[] <==>
      && FieldError(d, Name).None? && FieldError(d, Username).None? && FieldError(d, Email).None?
      && FieldError(d, Password).None? && FieldError(d, ConfirmPassword).None?
      && FieldError(d, Bio).None? && FieldError(d, Website).None?
  {
    CheckedAllPass(CheckOf(d));
  }

  /** None of the checked fields has an error exactly when every rule holds. */
  lemma NoFieldErrorIff(d: SignupFormData)
    ensures
      && FieldError(d, Name).None? && FieldError(d, Username).None? && FieldError(d, Email).None?
      && FieldError(d, Password).None? && FieldError(d, ConfirmPassword).None?
      && FieldError(d, Bio).None? && FieldError(d, Website).None?
      <==> Acceptable(d)
  {
    assert FieldError(d, Name).None? <==> NameOk(d.name) by { NameRule(d.name); }
    assert FieldError(d, Username).None? <==> UsernameOk(d.username) by { UsernameRule(d.username); }
    assert FieldError(d, Email).None? <==> MatchesEmail(d.email) by { EmailRule(d.email); }
    assert FieldError(d, Password).None? <==> PasswordOk(d.password) by { PasswordRule(d.password); }
    assert FieldError(d, Bio).None? <==> BioOk(d.bio) by { BioRule(d.bio); }
  }

  /** The empty form is invalid, with the required-field errors and no others. */
  lemma EmptyFormErrors()
    ensures Errors(Initial) == map[
      On(Name) := NameRequired, On(Username) := UsernameRequired,
      On(Email) := EmailRequired, On(Password) := PasswordRequired]
  {
    ErrorsInOrder(Initial);
    assert NameError("") == Some(NameRequired) && UsernameError("") == Some(UsernameRequired);
    assert EmailError("") == Some(EmailRequired) && PasswordError("") == Some(PasswordRequired);
    assert ConfirmError("", "").None? && BioError("").None? && WebsiteError("").None?;
  }

  // ---------------------------------------------------------------- slug

  /** A character of the slug alphabet `[a-z0-9-]`. */
  predicate IsSlugChar(c: char) {
    IsAsciiLower(c) || IsDigit(c) || c == '-'
  }

  /** `.toLowerCase().replace(/[^a-z0-9]/g, '-')` on one character. */
  function SlugChar(c: char): (r: char)
    ensures IsSlugChar(r)
    ensures IsAsciiLower(LowerChar(c)) || IsDigit(c) ==> r == LowerChar(c)
    ensures !IsAsciiLower(LowerChar(c)) && !IsDigit(c) ==> r == '-'
  {
    var lower := LowerChar(c);
    if IsAsciiLower(lower) || IsDigit(lower) then lower else '-'
  }

  /** The slug transformation, one character for one. */
  function Slugify(s: string): (slug: string)
    ensures |slug| == |s|
    ensures forall i :: 0 <= i < |s| ==> slug[i] == SlugChar(s[i])
  {
    seq(|s|, i requires 0 <= i < |s| => SlugChar(s[i]))
  }

  /** `generateSlug`: the username's slug, or the name's when the username is empty. */
  function GenerateSlug(name: string, username: string): (slug: string)
    ensures forall i :: 0 <= i < |slug| ==> IsSlugChar(slug[i])
    ensures username != "" ==> |slug| == |username|
    ensures username == "" ==> |slug| == |name|
  {
    var base := Slugify(username);
    if base != "" then base else Slugify(name)
  }

  /** The name is used only when the username is empty. */
  lemma SlugFallback(name: string, username: string)
    ensures username != "" ==> GenerateSlug(name, username) == Slugify(username)
    ensures username == "" ==> GenerateSlug(name, username) == Slugify(name)
  {
  }

  /** A slug is left as it is by the transformation: it is idempotent. */
  lemma SlugIdempotent(s: string)
    ensures Slugify(Slugify(s)) == Slugify(s)
  {
    forall i | 0 <= i < |s| ensures SlugChar(SlugChar(s[i])) == SlugChar(s[i]) {
      var c := SlugChar(s[i]);
      assert LowerChar(c) == c;
    }
  }

  /** The slug ignores letter case. */
  lemma SlugIgnoresCase(s: string)
    ensures Slugify(ToUpper(s)) == Slugify(s)
  {
    forall i | 0 <= i < |s| ensures SlugChar(UpperChar(s[i])) == SlugChar(s[i]) {
      assert LowerChar(UpperChar(s[i])) == LowerChar(s[i]);
    }
  }

  /** A username the validator accepts keeps its letters (lower-cased) and digits, and its underscores become hyphens. */
  lemma SlugOfValidUsername(name: string, username: string)
    requires IsWordString(username)
    ensures var slug := GenerateSlug(name, username);
      |slug| == |username| &&
      forall i :: 0 <= i < |username| ==>
        slug[i] == (if username[i] == '_' then '-' else LowerChar(username[i]))
  {
  }

  // ---------------------------------------------------------------- payload

  /**
   * The metadata of the `userData` object. The optional fields are sent as
   * `x || ''`, which on an input that is always a string is the input itself.
   */
  function MetadataOf(d: SignupFormData, today: string): map<string, Value> {
    map[
      "name" := Str(d.name),
      "username" := Str(d.username),
      "email" := Str(d.email),
      "bio" := Str(d.bio),
      "company_role" := Str(d.companyRole),
      "location" := Str(d.location),
      "website" := Str(d.website),
      "reputation_score" := Num(0),
      "join_date" := Str(today),
      "expertise_tags" := Str(d.expertiseTags)]
  }

  /** `userData`. */
  function UserData(d: SignupFormData, today: string): Value {
    Object(map[
      "title" := Str(d.name),
      "slug" := Str(GenerateSlug(d.name, d.username)),
      "type" := Str("users"),
      "metadata" := Object(MetadataOf(d, today))])
  }

  /** The JSON body posted to the signup handler. */
  function RequestBody(d: SignupFormData, today: string): Value {
    Object(map["user" := UserData(d, today), "password" := Str(d.password)])
  }

  /** The handler reads back from the body the password, the user's title and type, and what the form entered. */
  lemma RequestBodyReadsBack(d: SignupFormData, today: string)
    ensures var body := RequestBody(d, today);
      && Prop(body, "password") == Str(d.password)
      && Prop(Prop(body, "user"), "title") == Str(d.name)
      && Prop(Prop(body, "user"), "type") == Str("users")
      && Prop(SignupRoute.MetaOf(body), "name") == Str(d.name)
      && Prop(SignupRoute.MetaOf(body), "username") == Str(d.username)
      && Prop(SignupRoute.MetaOf(body), "email") == Str(d.email)
      && Prop(SignupRoute.MetaOf(body), "reputation_score") == Num(0)
  {
  }

  /** The optional profile fields are sent as strings, empty when left blank. */
  lemma OptionalFieldsSent(d: SignupFormData, today: string)
    ensures var meta := SignupRoute.MetaOf(RequestBody(d, today));
      && Prop(meta, "bio") == Str(d.bio)
      && Prop(meta, "company_role") == Str(d.companyRole)
      && Prop(meta, "location") == Str(d.location)
      && Prop(meta, "website") == Str(d.website)
      && Prop(meta, "expertise_tags") == Str(d.expertiseTags)
  {
  }

  /**
   * A form that passes validation also passes every 400 check of the signup
   * handler: the client rules are at least as strict as the server's.
   */
  lemma ValidFormPassesServerChecks(d: SignupFormData, today: string)
    requires Acceptable(d)
    ensures SignupRoute.HasRequiredFields(RequestBody(d, today))
    ensures !SignupRoute.BelowMinimum(Prop(Prop(RequestBody(d, today), "password"), "length"))
    ensures Prop(RequestBody(d, today), "password").Str?
  {
    RequestBodyReadsBack(d, today);
    EmailNotBlank(d.email);
  }

  /**
   * A valid form whose username and email are not in use is stored when the
   * CMS works: the new user carries the entered username and email, no
   * reputation, and the hash of the entered password.
   */
  lemma ValidFormIsStored(d: SignupFormData, today: string, users: seq<SignupRoute.StoredUser>, cms: SignupRoute.Cms, hash: string -> string)
    requires Acceptable(d)
    requires !cms.listingFails && !cms.insertFails
    requires forall k :: 0 <= k < |users| ==>
      SignupRoute.MetaField(users[k], "username") != Str(d.username) &&
      SignupRoute.MetaField(users[k], "email") != Str(d.email)
    ensures var out := SignupRoute.Handle(users, Some(RequestBody(d, today)), cms, hash);
      && out.response.status == 201
      && SignupRoute.MetaField(out.inserted.value, "username") == Str(d.username)
      && SignupRoute.MetaField(out.inserted.value, "email") == Str(d.email)
      && SignupRoute.MetaField(out.inserted.value, "reputation_score") == Num(0)
      && SignupRoute.MetaField(out.inserted.value, "password_hash") == Str(hash(d.password))
  {
    var body := RequestBody(d, today);
    ValidFormPassesServerChecks(d, today);
    RequestBodyReadsBack(d, today);
    AcceptedWhenFree(users, body, cms, hash, d);
    StoredAsRead(users, body, cms, hash, d);
  }

  /** A body that passes the handler's checks, with a username and email nobody has, is accepted. */
  lemma AcceptedWhenFree(users: seq<SignupRoute.StoredUser>, body: Value, cms: SignupRoute.Cms, hash: string -> string, d: SignupFormData)
    requires !cms.listingFails && !cms.insertFails
    requires SignupRoute.HasRequiredFields(body) && Prop(body, "password").Str?
    requires !SignupRoute.BelowMinimum(Prop(Prop(body, "password"), "length"))
    requires Prop(SignupRoute.MetaOf(body), "username") == Str(d.username)
    requires Prop(SignupRoute.MetaOf(body), "email") == Str(d.email)
    requires forall k :: 0 <= k < |users| ==>
      SignupRoute.MetaField(users[k], "username") != Str(d.username) &&
      SignupRoute.MetaField(users[k], "email") != Str(d.email)
    ensures SignupRoute.Handle(users, Some(body), cms, hash).response.status == 201
  {
    SignupRoute.SuccessConditions(users, body, cms, hash);
  }

  /** A stored signup keeps the username, email and reputation the handler read, and the hash of the password it read. */
  lemma StoredAsRead(users: seq<SignupRoute.StoredUser>, body: Value, cms: SignupRoute.Cms, hash: string -> string, d: SignupFormData)
    requires SignupRoute.Handle(users, Some(body), cms, hash).response.status == 201
    requires Prop(body, "password") == Str(d.password)
    requires Prop(SignupRoute.MetaOf(body), "username") == Str(d.username)
    requires Prop(SignupRoute.MetaOf(body), "email") == Str(d.email)
    requires Prop(SignupRoute.MetaOf(body), "reputation_score") == Num(0)
    ensures var out := SignupRoute.Handle(users, Some(body), cms, hash);
      && SignupRoute.MetaField(out.inserted.value, "username") == Str(d.username)
      && SignupRoute.MetaField(out.inserted.value, "email") == Str(d.email)
      && SignupRoute.MetaField(out.inserted.value, "reputation_score") == Num(0)
      && SignupRoute.MetaField(out.inserted.value, "password_hash") == Str(hash(d.password))
  {
    SignupRoute.SuccessStoresOneRecord(users, body, cms, hash);
  }

  // ---------------------------------------------------------------- state

  /** `setErrors(prev => ({ ...prev, [name]: '' }))`, done only when that field shows an error. */
  function ClearError(errors: map<ErrorKey, string>, key: ErrorKey): (cleared: map<ErrorKey, string>)
    ensures cleared.Keys == errors.Keys
    ensures forall k :: k in errors && k != key ==> cleared[k] == errors[k]
    ensures key in errors ==> cleared[key] == ""
  {
    if key in errors && errors[key] != "" then errors[key := ""] else errors
  }

  /** The message shown for a rejected request: the handler's message, or a stock one when it has none. */
  function SubmitError(message: string): (shown: string)
    ensures shown != ""
    ensures message != "" ==> shown == message
  {
    if message != "" then message else "Failed to create account"
  }

  /** `response.ok`. */
  predicate IsOk(status: nat) {
    200 <= status < 300
  }

  class Form {
    var data: SignupFormData
    var errors: map<ErrorKey, string>
    var isLoading: bool
    var isSuccess: bool

    constructor()
      ensures data == Initial && errors == map[] && !isLoading && !isSuccess
    {
      data := Initial;
      errors := map[];
      isLoading := false;
      isSuccess := false;
    }

    /** `validateForm`: rebuilds the error map and reports whether it is empty. */
    method ValidateForm() returns (valid: bool)
      modifies this
      ensures errors == Errors(data)
      ensures valid <==> Acceptable(data)
      ensures valid <==> errors == map[]
      ensures data == old(data) && isLoading == old(isLoading) && isSuccess == old(isSuccess)
    {
      var d := data;
      var newErrors: map<ErrorKey, string> := map[];
      newErrors := Put(newErrors, On(Name), NameError(d.name));
      newErrors := Put(newErrors, On(Username), UsernameError(d.username));
      newErrors := Put(newErrors, On(Email), EmailError(d.email));
      newErrors := Put(newErrors, On(Password), PasswordError(d.password));
      newErrors := Put(newErrors, On(ConfirmPassword), ConfirmError(d.password, d.confirmPassword));
      newErrors := Put(newErrors, On(Bio), BioError(d.bio));
      newErrors := Put(newErrors, On(Website), WebsiteError(d.website));
      assert newErrors == Errors(d) by {
        ErrorsInOrder(d);
      }
      errors := newErrors;
      valid := |newErrors| == 0;
      assert valid <==> Acceptable(d) by {
        ValidIff(d);
      }
    }

    /** `handleInputChange`: only the edited input changes, and only its own error is cleared. */
    method HandleInputChange(f: Field, value: string)
      modifies this
      ensures data == WithField(old(data), f, value)
      ensures errors == ClearError(old(errors), On(f))
      ensures isLoading == old(isLoading) && isSuccess == old(isSuccess)
    {
      data := WithField(data, f, value);
      if On(f) in errors && errors[On(f)] != "" {
        errors := errors[On(f) := ""];
      }
    }

    /**
     * `handleSubmit`. The request goes to `server` unless the network fails
     * first, in which case `networkError` is the message of the error
     * `fetch` throws. Returns the body that was sent, if any.
     */
    method HandleSubmit(server: SignupRoute.UserStore, cms: SignupRoute.Cms, hash: string -> string, today: string, networkError: Option<string>)
      returns (sent: Option<Value>)
      modifies this, server
      ensures data == old(data)
      ensures !Acceptable(old(data)) ==>
        && sent.None? && server.users == old(server.users)
        && errors == Errors(old(data)) && isLoading == old(isLoading) && isSuccess == old(isSuccess)
      ensures Acceptable(old(data)) ==> sent == Some(RequestBody(old(data), today)) && !isLoading
      ensures Acceptable(old(data)) && networkError.Some? ==>
        && server.users == old(server.users)
        && errors == map[Submit := networkError.value] && isSuccess == old(isSuccess)
      ensures Acceptable(old(data)) && networkError.None? ==>
        var out := SignupRoute.Handle(old(server.users), sent, cms, hash);
        && server.users == SignupRoute.After(old(server.users), out)
        && (IsOk(out.response.status) ==> isSuccess && errors == map[])
        && (!IsOk(out.response.status) ==> errors == map[Submit := SubmitError(out.response.message)] && isSuccess == old(isSuccess))
    {
      var valid := ValidateForm();
      if !valid {
        return None;
      }
      isLoading := true;
      var body := RequestBody(data, today);
      sent := Some(body);
      if networkError.Some? {
        errors := map[Submit := networkError.value];
      } else {
        var response := server.Post(sent, cms, hash);
        if IsOk(response.status) {
          isSuccess := true;
        } else {
          errors := map[Submit := SubmitError(response.message)];
        }
      }
      isLoading := false;
    }
  }
}
