# Community support hub — a Dafny model of its logic

The community support hub is a Next.js front end over a hosted headless CMS
(Cosmic). Users ask questions, answer them and earn badges. Most of the
application is markup. This project models the logic underneath it:

- **The signup handler** (`POST /api/signup`). It works over a store of user
  objects: it decides between 400, 409, 500 and 201, and on success it
  appends exactly one user record carrying the password hash.
- **The signup form**. It has a field-by-field validator that builds an error
  map, the slug generator, the request body it posts, and its state updates.
- **The data layer** (`lib/api.ts`). It has one getter per (entity, query)
  pair with the same "any failure gives `[]` or `null`" policy, and a
  client-side, case-insensitive substring search.
- **The questions and search pages**. The questions page filters by category
  and status and picks an empty-state heading. The search page defaults its
  query, skips the search for an empty query, and chooses its summary line
  and view.
- **The display components**:
  - badges grouped by type and shown in a fixed section order;
  - avatar initials and sizes;
  - comma-separated tag chips with a "+N" overflow counter;
  - website link normalisation;
  - the defaults and lookup tables of the question, user and badge cards;
  - the ask-a-question form.
- **The CMS client module**. It has the start-up credential check and the
  `hasStatus` error classifier.
- **The content model**. It has the entity types, the closed enumerations
  and the type guards.

**How the model is built**

- There is one Dafny module per source file. Four helper modules stand for
  JavaScript built-ins:
  - `Js`: JSON values (primitives, arrays and objects), truthiness, property access and `===`;
  - `Strings`: ASCII case mapping, `trim`, `split`/`join`, `includes` and
    decimal rendering;
  - `Sequences`: `filter`, `find` and `slice`;
  - `Wrappers`: `Option`.
- State that the source updates in place is a class:
  - the signup handler's user store (`SignupRoute.UserStore`);
  - the signup form (`SignupForm.Form`);
  - the question form (`QuestionForm.Form`).
- The badge grid's `reduce` is a method with a loop over a map
  (`BadgeGrid.GroupByType`).
- Everything else is functions and lemmas.

**Parameters and reference semantics**

- The CMS is a function parameter. A call to `find` or `findOne` returns
  objects or throws a value.
- `Api.Run` is a reference semantics for the query filters and limits. The
  lemmas about the filtered getters are stated against it.
- These are parameters rather than modelled behaviour:
  - the password hash function;
  - the CMS failures during signup;
  - the id the CMS assigns;
  - the network error of `fetch`;
  - the current date.

**Failures in the data layer**

Every getter's `catch` tests `hasStatus(error) && error.status === 404`, but
both branches return the same fallback: `[]` for a list and `null` for a
single object (lib/api.ts:13-19, 29-35, 48-54, 65-71, 86-92, 108-114,
126-132, 147-153, 172-178). No failure is re-thrown. The model states this in
`Api.ListOrEmpty`, `Api.OneOrNull` and `Api.FailuresAreSwallowed`.

## Model

| member | source | states |
|---|---|---|
| Types.BadgeTypeLabel | components/BadgeGrid.tsx:11 | the displayed badge type is the stored type value when non-empty, and "Achievement" when the type is absent or its value is empty |
| Types.ParseCategory | types.ts:132 | a category key parses only to the category whose key it is |
| Types.ParseStatus | types.ts:133 | a status key parses only to the status whose key it is |
| Types.ParseBadgeType | types.ts:134 | a badge-type key parses only to the badge type whose key it is |
| Types.EnumerationKeysRoundTrip | types.ts:132-134 | each enumeration is closed: every member's key parses back to that member |
| Types.EnumerationSizes | types.ts:132-134 | there are exactly five category keys, four status keys and three badge-type keys |
| Types.GuardsHolding | types.ts:139-153 | at most one of `isUser`/`isQuestion`/`isAnswer`/`isBadge` holds, and one holds exactly when the type is one of the four kinds |
| Cosmic.Initialise | lib/cosmic.ts:3-12 | start-up fails, with its fixed message, exactly when the bucket slug or the read key is unset or empty; otherwise the client gets those values, the write key if set, and the "staging" environment |
| Cosmic.WriteKeyOptional | lib/cosmic.ts:3-10 | setting or removing the write key never changes whether start-up succeeds |
| Cosmic.HasStatusClassifies | lib/cosmic.ts:15-17 | `null`, `undefined`, primitives and arrays are refused; an object is accepted exactly when its `status` property holds a number |
| Js.Member | app/api/signup/route.ts:16 | reading a property of `undefined` or `null` throws; a missing property of an object reads as `undefined`; the `length` of a string or array is its size |
| Js.StrictEqualsMeaning | app/api/signup/route.ts:47-48 | `===` is value equality on primitives, and a freshly parsed array or object is never `===` to anything |
| Strings.Trim | components/QuestionCard.tsx:17 | the result is a slice of the input with only white space outside it; it is empty exactly when the input is blank, and otherwise starts and ends with a non-blank character |
| Strings.ToLower | lib/api.ts:167 | lower-casing maps each character to its lower-case form and keeps the length |
| Strings.ToLowerOfUpper | lib/api.ts:167-168 | strings that differ only in letter case lower-case to the same string |
| Strings.SplitCount | components/QuestionCard.tsx:17 | splitting on a character gives one more piece than there are separators, and no piece contains the separator |
| Strings.SplitJoin | components/UserCard.tsx:16 | splitting a joined list of separator-free pieces gives the pieces back |
| Strings.JoinSplit | components/UserAvatar.tsx:20-22 | joining the pieces of a split with the same separator gives back the input |
| Strings.NatToStringRoundTrip | app/search/page.tsx:31 | the decimal rendering of a count reads back as the same number |
| Api.ListOrEmpty | lib/api.ts:13-19 | a list getter returns the objects on success and `[]` on any thrown failure |
| Api.OneOrNull | lib/api.ts:29-35 | a single-object getter returns the object on success and `null` on any thrown failure |
| Api.FailuresAreSwallowed | lib/api.ts:172-178 | no failure escapes a getter, and a 404 gives the same fallback as any other failure |
| Api.QueryShapes | lib/api.ts:74-154 | the featured, answers and user-badges queries filter on their kind plus one field (featured = true, the question id, the user id), and the featured query is limited to 5 |
| Api.GetUsers | lib/api.ts:5-20 | the users the CMS returns for the users query, or `[]` when it throws |
| Api.GetUserBySlug | lib/api.ts:22-36 | the user the CMS returns for the slug query, or `null` when it throws |
| Api.GetQuestions | lib/api.ts:39-55 | the questions the CMS returns for the questions query, or `[]` when it throws |
| Api.GetQuestionBySlug | lib/api.ts:57-72 | the question the CMS returns for the slug query, or `null` when it throws |
| Api.GetFeaturedQuestions | lib/api.ts:74-93 | the questions the CMS returns for the featured query, or `[]` when it throws |
| Api.GetAnswersByQuestionId | lib/api.ts:96-115 | the answers the CMS returns for the question's answers query, or `[]` when it throws |
| Api.GetBadges | lib/api.ts:118-133 | the badges the CMS returns for the badges query, or `[]` when it throws |
| Api.GetUserBadges | lib/api.ts:135-154 | the user-badges the CMS returns for the user's query, or `[]` when it throws |
| Api.SearchQuestions | lib/api.ts:157-179 | the search gives `[]` when fetching throws; otherwise it is the fetched list filtered by the search predicate, so never more questions than were fetched |
| Api.SearchKeepsExactlyMatches | lib/api.ts:166-169 | a question is found exactly when it was fetched and its lower-cased title, content and tags text contains the lower-cased query |
| Api.SearchPreservesOrder | lib/api.ts:159-171 | the result is an order-preserving subsequence of the fetched list |
| Api.SearchIsCaseInsensitive | lib/api.ts:167-168 | queries that differ only in letter case find the same questions |
| Api.SearchEmptyQueryKeepsAll | lib/api.ts:168 | the empty query keeps every fetched question |
| Api.SearchIdempotent | lib/api.ts:166-169 | filtering the result again with the same query changes nothing |
| Api.SearchExample | lib/api.ts:166-169 | a question titled "React hooks bug" is found by the query "react" |
| Api.MatchesPair | lib/api.ts:76-83 | a two-field exact-match filter holds exactly when both fields have the given values |
| Api.FeaturedFromStore | lib/api.ts:74-93 | from a store, the featured getter returns the first five featured questions in store order, so never more than five |
| Api.AnswersFromStore | lib/api.ts:96-115 | from a store, the answers getter returns exactly the answers of that question, in store order |
| Api.UserBadgesFromStore | lib/api.ts:135-154 | from a store, the user-badges getter returns exactly the awards of that user, in store order |
| QuestionsPage.FilteredQuestions | app/questions/page.tsx:17-25 | the shown questions are an order-preserving subsequence of the fetched ones |
| QuestionsPage.NoParamsKeepsAll | app/questions/page.tsx:17-25 | without a category or status parameter every question is shown |
| QuestionsPage.ShownExactly | app/questions/page.tsx:18-23 | a question is shown exactly when it was fetched and has the requested category key and status key; a question without a category is dropped by any category filter |
| QuestionsPage.BothParamsIntersect | app/questions/page.tsx:17-25 | with both parameters the result is the category filter followed by the status filter, in the original order |
| QuestionsPage.EmptyHeadingTruthful | app/questions/page.tsx:99 | "No questions yet" shows exactly when no filter is given, and then an empty page means nothing was fetched |
| SearchPage.QueryOf | app/search/page.tsx:13 | a missing `q` is the empty query |
| SearchPage.Results | app/search/page.tsx:14 | the empty query gives no results without searching; any other query gives the search result |
| SearchPage.ResultNoun | app/search/page.tsx:31 | the noun is "results" exactly when the count is not 1 |
| SearchPage.Summary | app/search/page.tsx:26-35 | the summary appears exactly for a non-empty query: "Found N result(s) for …" when there are results, "No results found for …" otherwise |
| SearchPage.ViewOf | app/search/page.tsx:37-59 | exactly one view: the list when there are results, the no-results card for a non-empty query, else the prompt |
| SearchPage.PromptIffNoQuery | app/search/page.tsx:13-59 | the search prompt, and no summary, appear exactly when `q` is absent or empty, whatever the CMS holds |
| BadgeGrid.GroupByType | components/BadgeGrid.tsx:10-17 | the `reduce` builds one bucket per occurring type, holding exactly that type's badges in input order |
| BadgeGrid.PushKeepsGrouping | components/BadgeGrid.tsx:12-15 | creating a missing bucket and pushing the badge onto it keeps the grouping of the badges seen so far |
| BadgeGrid.EachBadgeInExactlyOneGroup | components/BadgeGrid.tsx:10-17 | every badge lands in the bucket of its own type and in no other |
| BadgeGrid.GroupsKeepInputOrder | components/BadgeGrid.tsx:15 | within a bucket the badges keep their input order |
| BadgeGrid.TypeCountsAddUp | components/BadgeGrid.tsx:10-17 | over types covering every badge, the per-type counts add up to the number of badges |
| BadgeGrid.GroupSizesAddUp | components/BadgeGrid.tsx:10-17 | the bucket sizes add up to the number of input badges |
| BadgeGrid.SectionsFor | components/BadgeGrid.tsx:23-25 | a section is emitted only for a type in the order whose bucket is non-empty, with that bucket's badges |
| BadgeGrid.SectionsFollowOrder | components/BadgeGrid.tsx:23-25 | the section types are a subsequence of the given order |
| BadgeGrid.SectionHeadings | components/BadgeGrid.tsx:29 | every section is headed by its type followed by " Badges": "Company Team Badges", "Achievement Badges" or "Expertise Badges" |
| BadgeGrid.SectionsInFixedOrder | components/BadgeGrid.tsx:19-23 | sections appear in the order Company Team, Achievement, Expertise |
| BadgeGrid.RenderedIffKnownType | components/BadgeGrid.tsx:19-25 | a badge is rendered exactly when it is an input badge of one of the three known types; other types are grouped but never shown |
| BadgeGrid.SectionIndexOf | components/BadgeGrid.tsx:23-25 | a type in the order with a non-empty bucket has its own section |
| UserAvatar.DisplayName | components/UserAvatar.tsx:18 | the name is `metadata.name` when non-empty, else the title |
| UserAvatar.Head | components/UserAvatar.tsx:21 | a word contributes its first character, or nothing when it is empty |
| UserAvatar.Initials | components/UserAvatar.tsx:19-24 | the initials have at most two characters and no lower-case letter |
| UserAvatar.HeadsAreWordStarts | components/UserAvatar.tsx:20-22 | the first characters of the space-separated pieces are exactly the word-start characters; empty pieces add nothing |
| UserAvatar.InitialsMeaning | components/UserAvatar.tsx:19-24 | the initials are the first two word-start characters of the name, upper-cased |
| UserAvatar.TwoWordInitials | components/UserAvatar.tsx:19-24 | two words separated by any run of spaces give the upper-cased first letter of each |
| UserAvatar.SizeOf | components/UserAvatar.tsx:9 | the size defaults to md |
| UserAvatar.StepText | components/UserAvatar.tsx:10-15 | each size class step is written in decimal digits |
| UserAvatar.Pixels | components/UserAvatar.tsx:32-33 | the image is 32, 40, 64 or 96 pixels |
| UserAvatar.PixelsMatchClasses | components/UserAvatar.tsx:10-33 | the pixel size is four times the size class's step, and strictly grows from sm to xl |
| UserAvatar.Render | components/UserAvatar.tsx:26-42 | the image is drawn exactly when an avatar URL is present, from the avatar URL with the 120×120 crop query, at the size's pixel width and with the display name as alt text; otherwise the initials are drawn with the size's classes |
| Tags.ParseTags | components/QuestionCard.tsx:17 | an absent tag string gives no tags; a present one gives one tag per comma-separated piece, tag k being piece k trimmed, each trimmed and comma-free |
| Tags.TagsCountCommas | components/QuestionCard.tsx:17 | a present tag string gives one more tag than it has commas |
| Tags.SpacedTagsTrimmed | components/QuestionCard.tsx:17 | two tags typed with a space after the comma, as in "react, hooks", parse to the two tags without the space |
| Tags.ParseJoinedTags | components/UserCard.tsx:16 | parsing a comma-joined list of trimmed, comma-free tags gives the list back |
| Tags.EmptyStringIsOneTag | components/QuestionCard.tsx:17 | a present but empty tag string gives one empty tag |
| Tags.ShownTags | components/QuestionCard.tsx:58 | the chips are the first three tags, or all of them when there are fewer |
| Tags.HiddenCount | components/QuestionCard.tsx:66-67 | the overflow number exists exactly when there are more than three tags, and is then positive |
| Tags.ShownPlusHiddenIsAll | components/QuestionCard.tsx:58-68 | the chips shown plus the overflow number account for every tag |
| Tags.OverflowLabel | components/UserCard.tsx:67-68 | the counter "+N…" appears exactly when there are more than three tags, N being the count beyond three |
| Tags.ChipsShownIffPresent | components/QuestionCard.tsx:56 | the chip block is shown exactly when the tag string is present |
| QuestionCard.StatusLabel | components/QuestionCard.tsx:15 | the status is the stored value when non-empty, and "Open" when the status is absent or its value is empty |
| QuestionCard.CategoryLabel | components/QuestionCard.tsx:14 | the category is the stored value when non-empty, and "General" when the category is absent or its value is empty |
| QuestionCard.ViewsCount | components/QuestionCard.tsx:16 | the view count defaults to 0 |
| QuestionCard.StatusClasses | components/QuestionCard.tsx:19-30 | a known status gets its own colour classes and any other status the "Open" ones |
| QuestionCard.StatusColoursDistinct | components/QuestionCard.tsx:19-24 | distinct known statuses have distinct colours |
| QuestionCard.Heading | components/QuestionCard.tsx:44 | the heading prefers `metadata.title` over the object title |
| QuestionCard.PreviewAsWritten | components/QuestionCard.tsx:51 | as written, the preview is never empty: it is "undefined..." without content, else the first 200 characters followed by "..." |
| QuestionCard.PreviewAsWrittenShowsUndefined | components/QuestionCard.tsx:51 | as written, a question without content is previewed as "undefined...", which is not a preview of it |
| QuestionCard.Preview | components/QuestionCard.tsx:51 | the corrected preview: empty without content; otherwise the first 200 characters of the content (all of it when shorter) followed by "..." |
| QuestionCard.PreviewsAgreeWithContent | components/QuestionCard.tsx:51 | the corrected preview differs from the written one exactly for a question without content |
| QuestionCard.AuthorBlockOf | components/QuestionCard.tsx:73-85 | the author block appears exactly when `showAuthor` holds and the author is a resolved user, with that user's display name and reputation (default 0) |
| QuestionCard.Render | components/QuestionCard.tsx:12-102 | `showAuthor` defaults to true, and the author block is the resolved author's; the card shows the status, category, heading and view count with their fallbacks; the status classes match the status; the solved icon shows exactly for "Solved"; the preview is the one written ("undefined..." without content, a true preview otherwise); the chips are the first three tags and the counter reads "+N more" exactly beyond three |
| QuestionCard.DefaultsOfBareQuestion | components/QuestionCard.tsx:14-16 | a question with no status, category or views is shown as Open, General, 0 views, in the Open colour |
| QuestionCard.UnknownStatusLooksOpen | components/QuestionCard.tsx:30-32 | an unknown status is shown under its own name in the Open colour |
| UserCard.Reputation | components/UserCard.tsx:12 | reputation defaults to 0 |
| UserCard.Bio | components/UserCard.tsx:17 | the bio defaults to "" |
| UserCard.Href | components/UserCard.tsx:86 | the link always starts with "http": the website unchanged if it does, else "https://" prefixed |
| UserCard.DisplayWebsite | components/UserCard.tsx:91 | the text is the website with one leading "https://" or "http://" removed, and otherwise unchanged |
| UserCard.DisplayDropsScheme | components/UserCard.tsx:91 | an address behind either scheme is displayed as the bare address |
| UserCard.LinkAndTextAgree | components/UserCard.tsx:86-91 | a website without a scheme is linked over https and displayed as entered, and the link displays as the website |
| UserCard.Present | components/UserCard.tsx:43-47 | an optional row appears exactly when its field is present and non-empty, showing that field |
| UserCard.Render | components/UserCard.tsx:11-105 | the name falls back to the title; the username is shown; the company-role, location, website and join-date rows appear exactly when present, carrying the stored value; the website link is the address unchanged when it starts with "http" and "https://" prefixed otherwise, and its text drops the scheme; the chips are the first three expertise tags and the counter reads "+N" exactly beyond three |
| UserCard.BareUserCard | components/UserCard.tsx:12-101 | a user with no optional fields shows reputation 0 and none of the optional rows |
| BadgeCard.TypeClass | components/BadgeCard.tsx:19-26 | the three known types get their own class and any other type "badge-achievement" |
| BadgeCard.FallbacksAgree | components/BadgeCard.tsx:19-26 | this card and the catalogue card know the same three types and both fall back to the achievement style |
| BadgeCard.Render | components/BadgeCard.tsx:10-80 | nothing is rendered exactly when the award has no badge; the name, type label and class, description and icon (the image URL with the 64×64 crop query, or the coloured placeholder) are the badge's; the reason is shown, with its stored text, exactly when present; the earned date exactly when requested and present |
| BadgeCard.PlaceholderIcon | components/BadgeCard.tsx:32-46 | a badge without an image is drawn as a placeholder disc, in "#3b82f6" when it has no colour |
| BadgeCard.EarnedDateHiddenByDefault | components/BadgeCard.tsx:71 | without `showEarnedDate` the earned date is never shown |
| BadgeCard.UntypedBadgeIsAchievement | components/BadgeCard.tsx:25-26 | an untyped badge is labelled and styled as an achievement |
| SingleBadgeCard.StyledType | components/SingleBadgeCard.tsx:14-15 | a known type is styled as itself and any other as "Achievement" |
| SingleBadgeCard.ColourClasses | components/SingleBadgeCard.tsx:8-15 | the colour classes are the known type's, or the Achievement ones |
| SingleBadgeCard.BadgeName | components/SingleBadgeCard.tsx:43 | the name falls back to the title |
| SingleBadgeCard.PlaceholderColour | components/SingleBadgeCard.tsx:33 | the placeholder colour is the badge's colour when set and non-empty, and "#3b82f6" when it is absent or empty |
| SingleBadgeCard.IconOf | components/SingleBadgeCard.tsx:22-37 | the image is shown exactly when an icon URL is present, with the card's image query appended; otherwise the coloured placeholder |
| SingleBadgeCard.PointsRequired | components/SingleBadgeCard.tsx:16 | points required defaults to 0 |
| SingleBadgeCard.RequirementLine | components/SingleBadgeCard.tsx:51-57 | "Requires N reputation points" appears exactly when N > 0 |
| SingleBadgeCard.Render | components/SingleBadgeCard.tsx:7-71 | the card's colour is its styled type's; the name, description and icon (the image URL with the 80×80 crop query, or the coloured placeholder) are the badge's; the requirement line reads "Requires N reputation points" and appears exactly for a positive requirement; the criteria block exactly when criteria are present |
| SingleBadgeCard.UntypedOrUnknownIsAchievement | components/SingleBadgeCard.tsx:14-15 | an untyped or unknown badge gets the Achievement colours |
| SingleBadgeCard.RequirementReadsBack | components/SingleBadgeCard.tsx:54 | the number in the requirement line reads back as the points required |
| QuestionForm.CategoryLabel | components/QuestionForm.tsx:64 | a key in the table gets its label, and an unknown key "General" |
| QuestionForm.CategoryTableMatchesEnumeration | components/QuestionForm.tsx:14-20 | the table has a label for a key exactly when the key is one of the five categories |
| QuestionForm.WithField | components/QuestionForm.tsx:35-38 | only the named input changes |
| QuestionForm.SubmitNeedsTitleAndContent | components/QuestionForm.tsx:195 | submit is disabled for the fresh form, while submitting, and when the title or content is blank |
| QuestionForm.NewQuestionAsDisplayed | components/QuestionForm.tsx:53-72 | a new question is shown as Open, unfeatured, with 0 views, its category's label and no author block, and is listed under "open" and its category |
| QuestionForm.Form.constructor | components/QuestionForm.tsx:24-31 | the form starts empty with category "general", not submitting, with no error |
| QuestionForm.Form.HandleInputChange | components/QuestionForm.tsx:33-39 | only the named input changes |
| QuestionForm.Form.HandleSubmit | components/QuestionForm.tsx:41-97 | on success the record is built and the form reset; on failure the inputs are kept and the error is set; never submitting afterwards |
| SignupRoute.BelowMinimum | app/api/signup/route.ts:33 | a numeric length is too short exactly below 8; an `undefined` or object length never is; an array length is compared through its comma-join, so the empty array is below and two or more elements never are |
| SignupRoute.TakenMeaning | app/api/signup/route.ts:47-48 | a value is taken exactly when some stored user's field is `===` to it |
| SignupRoute.Handle | app/api/signup/route.ts:13-104 | the answer is 201, 400, 409 or 500; a record is inserted and a user returned exactly on 201 |
| SignupRoute.After | app/api/signup/route.ts:82 | the store grows by the inserted record, or is unchanged |
| SignupRoute.UserStore.Post | app/api/signup/route.ts:13-104 | the handler's answer, with the store updated by exactly the record it inserts |
| SignupRoute.MissingPayloadRejected | app/api/signup/route.ts:18-23 | a missing user or password gives 400 "User data and password are required" and stores nothing |
| SignupRoute.MissingFieldsRejected | app/api/signup/route.ts:26-31 | a falsy name, username or email gives 400 "Name, username, and email are required" and stores nothing |
| SignupRoute.ShortPasswordRejected | app/api/signup/route.ts:33-38 | a password shorter than 8 gives 400 whatever the store and the CMS hold |
| SignupRoute.ArrayPasswordNeverStored | app/api/signup/route.ts:15-70 | a password sent as an array is never stored, and with fewer than 8 elements it gets the short-password 400 |
| SignupRoute.DuplicateUsernameWins | app/api/signup/route.ts:47-55 | a username `===` to a stored one gives 409 "Username already exists", even when the email is taken too |
| SignupRoute.DuplicateEmailRejected | app/api/signup/route.ts:48-62 | a fresh username with a taken email gives 409 "Email already exists" |
| SignupRoute.ListingFailureSkipsChecks | app/api/signup/route.ts:63-66 | when listing users throws, the handler acts as if there were no users |
| SignupRoute.ListingFailureAdmitsDuplicate | app/api/signup/route.ts:41-66 | with an unreadable list a taken username is registered again, where a readable list gives 409 |
| SignupRoute.SuccessStoresOneRecord | app/api/signup/route.ts:69-95 | on 201 exactly one record is appended: the submitted user, with `password_hash` set to the hash and every other metadata field unchanged; the answer carries only id, name, username and email |
| SignupRoute.SuccessConditions | app/api/signup/route.ts:13-104 | with a readable list, signup succeeds exactly when the fields are present, the password is a long enough string, username and email are free, and the insert works |
| SignupRoute.SignupKeepsAccountsDistinct | app/api/signup/route.ts:40-82 | with a readable list, a signup never creates a second account with the same username or email |
| SignupForm.WithField | components/SignupForm.tsx:88-91 | only the edited input changes |
| SignupForm.EmailFromParts | components/SignupForm.tsx:59 | local part, domain and final label without `@` or white space make an accepted address |
| SignupForm.EmailParts | components/SignupForm.tsx:59 | an accepted address has no white space, one `@` not first, and a dot after it neither adjacent nor last |
| SignupForm.EmailNotBlank | components/SignupForm.tsx:57-59 | an accepted address is not blank |
| SignupForm.UrlWithScheme | components/SignupForm.tsx:78 | a scheme followed by at least one character is accepted; a bare scheme or an address without "http" is not |
| SignupForm.NameRule | components/SignupForm.tsx:45-47 | the name is rejected exactly when blank |
| SignupForm.UsernameRule | components/SignupForm.tsx:49-55 | at most one username error, chosen in order: blank, shorter than 3, a character outside `[a-zA-Z0-9_]`; it passes exactly when it is 3 or more word characters |
| SignupForm.EmailRule | components/SignupForm.tsx:57-61 | a blank email is "required", otherwise it must match the pattern, and it passes exactly when it does |
| SignupForm.PasswordRule | components/SignupForm.tsx:63-67 | an empty password is "required", a shorter one than 8 "too short"; it passes exactly from 8 characters |
| SignupForm.BioRule | components/SignupForm.tsx:74-76 | a bio is rejected exactly above 500 characters, so 500 is accepted |
| SignupForm.CollectMeaning | components/SignupForm.tsx:42-80 | after checking distinct fields in turn, the map holds exactly each failing field's error and nothing else |
| SignupForm.ErrorsInOrder | components/SignupForm.tsx:42-80 | the error map is the seven rules applied in source order |
| SignupForm.ErrorsMeaning | components/SignupForm.tsx:42-80 | each field has its own rule's error in the map, and there is no `submit` entry |
| SignupForm.UncheckedHaveNoError | components/SignupForm.tsx:42-80 | company role, location and expertise tags never get an error |
| SignupForm.ValidIff | components/SignupForm.tsx:82-83 | the error map is empty exactly when every rule holds |
| SignupForm.NoErrorsIff | components/SignupForm.tsx:83 | the map is empty exactly when no checked field has an error |
| SignupForm.NoFieldErrorIff | components/SignupForm.tsx:45-80 | no checked field has an error exactly when every rule, stated positively, holds |
| SignupForm.EmptyFormErrors | components/SignupForm.tsx:24-67 | the fresh form has exactly the four "required" errors |
| SignupForm.SlugChar | components/SignupForm.tsx:103 | each character becomes a slug character: its lower-case letter or digit, else "-" |
| SignupForm.Slugify | components/SignupForm.tsx:103 | the slug transformation is one character for one |
| SignupForm.GenerateSlug | components/SignupForm.tsx:102-105 | the slug uses only `[a-z0-9-]` and has the username's length, or the name's when the username is empty |
| SignupForm.SlugFallback | components/SignupForm.tsx:104 | the name is used exactly when the username is empty |
| SignupForm.SlugIdempotent | components/SignupForm.tsx:103 | transforming a slug again changes nothing |
| SignupForm.SlugIgnoresCase | components/SignupForm.tsx:103 | the slug ignores letter case |
| SignupForm.SlugOfValidUsername | components/SignupForm.tsx:102-105 | an accepted username keeps its letters lower-cased and digits, and its underscores become hyphens |
| SignupForm.RequestBodyReadsBack | components/SignupForm.tsx:118-145 | the handler reads back the password, title, type, name, username, email and reputation 0 the form sent |
| SignupForm.OptionalFieldsSent | components/SignupForm.tsx:126-132 | the optional profile fields are sent as strings, empty when left blank |
| SignupForm.ValidFormPassesServerChecks | components/SignupForm.tsx:110-145 | a form that passes validation passes every 400 check of the handler |
| SignupForm.ValidFormIsStored | components/SignupForm.tsx:107-152 | a valid form with a free username and email is stored when the CMS works, with the entered username and email, reputation 0 and the hash of the entered password |
| SignupForm.ClearError | components/SignupForm.tsx:94-99 | only the edited field's error is cleared to "", and no key is added or removed |
| SignupForm.SubmitError | components/SignupForm.tsx:147-150 | a rejected request shows the handler's message, or a stock one when it is empty |
| SignupForm.Form.constructor | components/SignupForm.tsx:24-39 | the form starts empty, with no errors, not loading and not succeeded |
| SignupForm.Form.ValidateForm | components/SignupForm.tsx:41-84 | the error map is rebuilt from the rules, and the form is valid exactly when every rule holds, that is when the map is empty |
| SignupForm.Form.HandleInputChange | components/SignupForm.tsx:86-100 | only the edited input changes and only its own error is cleared |
| SignupForm.Form.HandleSubmit | components/SignupForm.tsx:107-161 | an invalid form sends nothing and leaves the store alone; a valid one posts its body, and the store and the form's success flag and errors follow the handler's answer or the network error; never loading afterwards |

## Left out

- The bcrypt hash and its random salt (app/api/signup/route.ts:69-70) are the function parameter `hash`. No cryptographic property is claimed.
- The check-then-insert race between concurrent signups is concurrency. The model is sequential.
- SignupRoute.Handle: a stored user object without `metadata` would make the duplicate scan throw, which is swallowed like a listing failure. In the model every stored user has a metadata map.
- SignupRoute.BelowMinimum: JavaScript's numeric conversion of strings is modelled only for the empty string and strings of decimal digits. Other numeric spellings (signs, decimals, exponents, surrounding white space) are treated as NaN.
- Numbers in JSON values are integers. Floating-point values are not modelled.
- Js.Member: of an array, only `length` is modelled; its index properties ("0", "1", …) read as `undefined`, which no modelled code reads.
- Strings are sequences of characters, and lengths count characters rather than UTF-16 code units.
- Case mapping is ASCII only. `trim`, the regular-expression class `\s` and `AllWhitespace` treat only ASCII white space as blank, not the Unicode space characters.
- The regular expressions of the signup form are stated as predicates over positions, not as a regular-expression engine.
- SignupForm.Form.ValidateForm: the rules test `AllWhitespace` where the source tests `!x.trim()`. `Strings.Trim` proves the two agree.
- SignupForm: error-map keys are a datatype (`ErrorKey`) standing for the input names and `submit`.
- SignupForm.Form.HandleSubmit: a failing `response.json()` on a rejected request is not modelled. A non-string `message` in the handler's answer is not modelled either. The handler's answer message is a string.
- The `join_date` of the request body is the parameter `today`. The date and clock uses elsewhere are left out (the earned-date format in components/BadgeCard.tsx:74, the footer year).
- `lib/utils.ts` (date formatting and class-name merging) is not part of this model.
- UserCard.Render: the join-date row carries the stored date as it is; the "Joined " prefix and the `formatDate` call (components/UserCard.tsx:99) are left out with `lib/utils.ts`.
- I/O and framework effects are left out: `fetch` (its network failure is a parameter), `alert`, `setTimeout`, `router.push`/`router.back`, `console.*`, and React rendering and markup, including the `className` prop of `UserAvatar` (components/UserAvatar.tsx:9, 31, 39), which only adds styling. The cards are modelled as the values they display.
- The CMS SDK is not modelled. The query builder, server-side sorting and depth expansion are recorded in `Api.Query` but not proved. `Api.Run` takes the store as already sorted.
- QuestionForm.Form.HandleSubmit: the simulated delay is the parameter `fails`. The source's awaited promise never rejects, so its failure branch is unreachable in the source itself.
- Property names that JavaScript would resolve through the prototype chain (for example `toString` on a plain object) are treated as absent.
- Pure presentation or configuration files are not part of this model: the header, footer, layout, not-found page, the ask, users, badges and home pages, the featured-questions and categories components, and `next.config.js`.

The question card itself (`QuestionCard.Render`) keeps the preview as written,
so it shows "undefined..." for a question without content, as the component
does; `QuestionCard.Preview` is the corrected definition.

## Findings

| source | as written | input that shows it | evidently intended | confidence | as-written member | corrected member |
|---|---|---|---|---|---|---|
| components/QuestionCard.tsx:51 | the `+ '...'` is applied before the `''` fallback: a missing content gives `undefined + '...'`, the truthy string "undefined...", so the fallback never applies | a question whose `metadata.content` is absent | an empty preview when there is no content, and "…" appended only to actual content | not executed | QuestionCard.PreviewAsWrittenShowsUndefined | QuestionCard.Preview |
