# Portfolio site rules, modelled in Dafny

This project models the deterministic rules of a personal portfolio website
built with Next.js. It covers five areas:

- **Contact submission.** The `contactSchema` validation rules and the
  client form's state machine: field edits, the error map, the submitting
  flag, and the success and failure banners. It also covers the server's
  `POST /api/contact` stub.
- **Catalogue selection and formatting.** The case-insensitive technology
  filter and the optional limit with its "View All" link, the three-badge
  rule on project cards, the experience date ranges, and the skill icon
  lookup with its fallback. The static catalogue is the model's concrete input.
- **Scroll-driven header state.** The "scrolled" threshold, the first-match
  search for the active section, the anchor scroll targets and the mobile
  menu. This area also includes the one-shot reveal-on-scroll wrapper.
- **Theme preference.** The stored preference is resolved against the system
  preference by both the theme button and the pre-hydration script. The
  page starts with no theme class on either element. The script runs in the
  document head, before the body exists: it puts the theme class on the root
  element and then throws when it reaches for the body. The theme button,
  once mounted, puts exactly one of "dark" and "light" on both elements and
  keeps it so on every press. No page of the site renders the button; it is
  modelled as the component it is.
- **Loading screen.** The typed prefix, the completion flag, the one-time
  completion callback and the blinking cursor.

Modelling choices:

- Browser state is the `Dom.Page` class. It holds the class sets of the root
  and body elements, the body's `overflow` style and local storage. All
  components share one page, so a style written by one component is visible
  to the others: closing a project's modal while the mobile menu is open
  unlocks scrolling under the open menu.
- Timers, scroll events, intersection callbacks and the mail relay's answer
  are events: each one is a method call.
- Values the page supplies are parameters: the scroll offset, element boxes,
  the `matchMedia` result and the relay configuration.
- zod's e-mail format rule is the parameter `isEmail`.
- `trim` and `toLowerCase` are ASCII versions. `trim` also strips the four
  non-ASCII white-space characters the language names.

Where the code and its documentation disagree, the model follows the code:

- **The last issue wins.** When a field has several issues, the error map
  keeps the last one, because the `forEach` loop overwrites earlier entries.
- **Length bounds apply to the untrimmed string.** The name's upper bound is
  inclusive (50 characters pass), although its message says "less than 50".
- **Skill icons always fall back.** The skill card reads `iconName`, which the
  `Skill` record does not declare, so every card takes the fallback icon.

## Model

| member | source | states |
|---|---|---|
| Common.TrimStart | src/lib/schemas.ts:12 | what it drops is white space and what it keeps does not start with white space |
| Common.TrimEnd | src/lib/schemas.ts:12 | what it drops is white space and what it keeps does not end with white space |
| Common.TrimStartIsSuffix | src/lib/schemas.ts:12 | what leading trimming keeps is a suffix of the input |
| Common.TrimEndIsPrefix | src/lib/schemas.ts:12 | what trailing trimming keeps is a prefix of the input |
| Common.Trim | src/lib/schemas.ts:12 | the result is no longer than the input and has no white space at either end |
| Common.TrimKeepsMiddle | src/lib/schemas.ts:12 | `trim` keeps one contiguous piece of the input and drops only white space on both sides |
| Common.TrimFixesTrimmed | src/lib/schemas.ts:12 | trimming is idempotent, and a string without white space at its ends is its own trim |
| Common.LowerChar | src/lib/schemas.ts:19 | the result is never an upper-case letter, upper-case letters move by 32 and other characters are unchanged |
| Common.Lower | src/lib/schemas.ts:19 | same length; every upper-case letter becomes its lower-case partner (code point plus 32); every other character is untouched |
| Common.LowerIdempotent | src/lib/schemas.ts:19 | lower-casing twice equals lower-casing once |
| Common.LowerEqualIffSameIgnoringCase | src/lib/schemas.ts:19 | two strings lower-case to the same string exactly when they differ only in letter case |
| Common.TrimLowerCommute | src/lib/schemas.ts:18-19 | trimming then lower-casing equals lower-casing then trimming |
| Schemas.FieldAccepted | src/lib/schemas.ts:8-39 | definition: each field's rule stated on its own, independent of the check chains; bounds on the raw length, the phone absent, empty or made of pattern characters |
| Schemas.Accepted | src/lib/schemas.ts:7-40 | definition: every field's rule holds |
| Schemas.NameIssues | src/lib/schemas.ts:8-12 | definition: the name chain, minimum then maximum on the raw string; ChainIssues states its meaning |
| Schemas.EmailIssues | src/lib/schemas.ts:14-19 | definition: the e-mail chain, format then minimum on the raw string; ChainIssues states its meaning |
| Schemas.SubjectIssues | src/lib/schemas.ts:21-25 | definition: the subject chain, minimum then maximum; ChainIssues states its meaning |
| Schemas.MessageIssues | src/lib/schemas.ts:27-31 | definition: the message chain, minimum then maximum; ChainIssues states its meaning |
| Schemas.PhoneIssues | src/lib/schemas.ts:33-39 | definition: the phone refinement; ChainIssues and PhoneRule state its meaning |
| Schemas.Issues | src/lib/schemas.ts:7-40 | definition: all chains in shape order; IssuesMatchRules states which fields get issues |
| Schemas.SafeParse | src/lib/schemas.ts:7-40 | accepted exactly when every field rule holds on the raw strings; the accepted output is trimmed, with the e-mail also lower-cased; a rejection carries at least one issue, each on a failing field |
| Schemas.ChainIssues | src/lib/schemas.ts:8-39 | each field's check chain reports an issue for its own field exactly when that field's rule fails, and never for another field |
| Schemas.IssuesMatchRules | src/lib/schemas.ts:7-40 | every field is checked: a field has an issue if and only if its rule fails, and there are no issues exactly when the input is accepted |
| Schemas.ShortMessageRejected | src/lib/schemas.ts:27-31 | a 10-character message is rejected with the message-length issue |
| Schemas.NameBoundsOnRawString | src/lib/schemas.ts:8-12 | 50 characters pass and 51 fail; a padded name passes on its raw length and trims to one character |
| Schemas.EmailCaseInsensitive | src/lib/schemas.ts:14-19 | two addresses that differ only in case parse alike and normalise to the same address |
| Schemas.PhoneRule | src/lib/schemas.ts:33-39 | an absent or empty phone is valid, a phone of digits, spaces and `+-()` is valid, and one with letters is not |
| ContactForm.ConfigValid | src/components/sections/Contact.tsx:14-29 | definition: the configuration is valid exactly when the service, template and public-key identifiers are all present and non-empty |
| ContactForm.WithField | src/components/sections/Contact.tsx:50 | the edited field takes the new value and the other three keep theirs |
| ContactForm.ErrorMap | src/components/sections/Contact.tsx:76-81 | definition: the issues, in order, each write their message under their field; ErrorMapKeys and ErrorMapLastWins state what the map holds |
| ContactForm.ErrorMapKeys | src/components/sections/Contact.tsx:76-81 | the fields with an error are exactly the fields with an issue |
| ContactForm.ErrorMapLastWins | src/components/sections/Contact.tsx:76-81 | a field's error is the message of the last issue for that field |
| ContactForm.CollectErrors | src/components/sections/Contact.tsx:76-82 | the `forEach` loop builds exactly the error map of the issue list |
| ContactForm.TemplateFor | src/components/sections/Contact.tsx:108-113 | the relay gets the raw name, address and message; the subject is never empty, and a non-empty subject is passed as typed |
| ContactForm.FailureMessage | src/components/sections/Contact.tsx:141-152 | definition of the failure banner; FailureMessageShape states its parts |
| ContactForm.FailureMessageShape | src/components/sections/Contact.tsx:141-152 | the banner is the fixed prefix, then the error's text if it has one, else its message if it has one, else nothing, then the fixed advice |
| ContactForm.SubmitStep | src/components/sections/Contact.tsx:73-113 | definition of the synchronous decision as a value; InvalidSubmitReportsFailingFields and SendOnlyValidConfigured state when each outcome occurs |
| ContactForm.DecideSubmit | src/components/sections/Contact.tsx:73-113 | the synchronous decision is invalid with the collected errors, not configured, or send with the template parameters |
| ContactForm.InvalidSubmitReportsFailingFields | src/components/sections/Contact.tsx:73-84 | a submission is invalid exactly when the schema rejects it, and then the error map names exactly the failing fields |
| ContactForm.SendOnlyValidConfigured | src/components/sections/Contact.tsx:86-113 | the relay is called exactly for valid data and a complete configuration (all three identifiers non-empty); valid data without it gets the fixed message; the relay receives the raw form data |
| ContactForm.SubmitScenarios | src/components/sections/Contact.tsx:65-113 | a valid form is sent as typed; the same form with a 10-character message reports only the message-length error |
| ContactForm.ContactFormState.constructor | src/components/sections/Contact.tsx:36-45 | starts with four empty fields, no errors, nothing in flight and no banner |
| ContactForm.ContactFormState.HandleChange | src/components/sections/Contact.tsx:47-63 | updates only the edited field, blanks that field's error only when it was set, keeps other errors and clears both banners |
| ContactForm.ContactFormState.HandleSubmit | src/components/sections/Contact.tsx:65-94 | clears errors and banners; invalid data sets the error map and sends nothing; missing configuration sets the fixed message and sends nothing; otherwise one relay call starts and the form is submitting |
| ContactForm.ContactFormState.DeliveryFinished | src/components/sections/Contact.tsx:120-155 | success resets the form, shows the success banner and starts its timer; failure shows the composed message and keeps the form; submitting ends either way |
| ContactForm.ContactFormState.DismissTimerFires | src/components/sections/Contact.tsx:131-132 | the success banner goes away five seconds later, with nothing else changed |
| ContactRoute.TruthyValue | src/app/api/contact/route.ts:9 | definition: JavaScript truthiness; `null`, `false`, `0` and the empty string are falsy, every array and object is truthy |
| ContactRoute.Property | src/app/api/contact/route.ts:6 | definition: destructuring reads an object's own member, and `undefined` for a missing member or a non-object value |
| ContactRoute.TruthyProperty | src/app/api/contact/route.ts:9 | definition: the property is present and truthy |
| ContactRoute.HasRequiredFields | src/app/api/contact/route.ts:6-9 | definition: the reference rule that all four destructured fields are truthy; RequiredFieldsOneByOne ties it to the handler's test |
| ContactRoute.RequiredFieldsOneByOne | src/app/api/contact/route.ts:9 | the four-way truthiness test is the "all required fields truthy" rule |
| ContactRoute.Post | src/app/api/contact/route.ts:3-38 | 500 with "Failed to send message" exactly for an unreadable or null body; 400 with "All fields are required" exactly when a required field is missing or falsy; otherwise 200 with success |
| ContactRoute.ExtraMembersIgnored | src/app/api/contact/route.ts:5-6 | members other than the four fields do not change the response |
| ContactRoute.OnlyTruthinessChecked | src/app/api/contact/route.ts:9-14 | four single spaces pass; a form with an empty field gets 400; any form with four non-empty fields gets 200 |
| ContactRoute.SchemaAcceptedIsSent | src/app/api/contact/route.ts:9-30 | whatever the contact schema accepts, the endpoint answers 200 |
| ContactRoute.ScalarBodies | src/app/api/contact/route.ts:5-14 | a null body ends in 500; any other non-object body is refused with 400 |
| Catalogue.ProjectRecords | src/lib/constants.ts:41-86 | four projects with ids 1 to 4, pairwise distinct, each with a non-empty technology list |
| Catalogue.SkillRecords | src/lib/constants.ts:111-157 | every skill level is within 0..100 and no skill sets an icon key |
| Catalogue.ExperienceRecords | src/lib/constants.ts:159-182 | the current position has no end date and the past one has one |
| Projects.SomeTechMatches | src/components/sections/Projects.tsx:34-36 | true exactly when some technology entry equals the filter ignoring case |
| Projects.KeepMatching | src/components/sections/Projects.tsx:33-37 | the filter never lengthens the list |
| Projects.KeepMatchingSpec | src/components/sections/Projects.tsx:33-37 | the kept projects are an order-preserving subsequence, all of them match, and every matching project is kept |
| Projects.KeepMatchingCounts | src/components/sections/Projects.tsx:33-37 | every copy of a matching record is kept and no copy of any other: each record occurs in the result as often as in the input when it matches, and not at all otherwise |
| Projects.FilteredProjects | src/components/sections/Projects.tsx:28-38 | the filtered list is never longer than the catalogue |
| Projects.FilteredProjectsSpec | src/components/sections/Projects.tsx:28-38 | "all" gives the whole catalogue in order; any other value keeps exactly the matching projects, in catalogue order |
| Projects.KeepMatchingIgnoresCase | src/components/sections/Projects.tsx:33-37 | two filters that differ only in letter case keep the same projects |
| Projects.FilterIgnoresCase | src/components/sections/Projects.tsx:29-37 | two filter values other than "all" that differ only in case select the same projects |
| Projects.SliceEnd | src/components/sections/Projects.tsx:42 | the end index of `slice(0, limit)`, never past the list: a non-negative limit keeps at most `limit` elements, fewer only when the list runs out; a negative limit drops exactly `-limit` elements from the end, or all of them when the list is shorter |
| Projects.DisplayedProjects | src/components/sections/Projects.tsx:41-44 | the displayed list is a prefix of the filtered list, the whole list when no limit is set |
| Projects.DisplayCounts | src/components/sections/Projects.tsx:28-44 | displayed count is at most filtered count, which is at most catalogue count |
| Projects.LimitKeepsPrefix | src/components/sections/Projects.tsx:41-44 | a positive limit keeps the first `min(limit, n)` projects; a negative one drops that many from the end; no limit or zero keeps all |
| Projects.ShowViewAll | src/components/sections/Projects.tsx:164 | definition: a truthy limit reached by the displayed list; ViewAllRule states when it holds |
| Projects.ShowsNoProjectsMessage | src/components/sections/Projects.tsx:131-158 | definition: the empty-state message replaces the grid exactly when nothing is displayed |
| Projects.ViewAllRule | src/components/sections/Projects.tsx:164 | with a positive limit, "View All" shows exactly when at least `limit` projects matched; a negative limit always shows it; no limit never does |
| Projects.FilterReact | src/lib/constants.ts:41-86 | "react" selects projects 1, 3 and 4 |
| Projects.FilterTypescript | src/lib/constants.ts:41-86 | "typescript" selects projects 1 and 2 |
| Projects.FilterEmpty | src/components/sections/Projects.tsx:131-158 | "next.js" and "web3" select nothing, so the empty-state message shows |
| Projects.HomePageShowsAll | src/app/page.tsx:87 | with limit 4 and no filter, all four projects and "View All" show |
| Projects.ProjectsView.constructor | src/components/sections/Projects.tsx:23-25 | starts on the "all" filter with no project open |
| Projects.ProjectsView.HandleProjectClick | src/components/sections/Projects.tsx:46-50 | opens the modal on the project and locks body scrolling, touching nothing else |
| Projects.ProjectsView.CloseModal | src/components/sections/Projects.tsx:52-55 | closes the modal and sets the body overflow to "unset" |
| Projects.ProjectsView.HandleFilterChange | src/components/sections/Projects.tsx:57-59 | changes only the filter; an open modal stays open, the page is untouched, and the scroll lock holds afterwards exactly when it held before |
| ProjectCard.ShownBadges | src/components/shared/ProjectCard.tsx:55 | at most three badges, the first entries in order, `min(3, n)` of them |
| ProjectCard.OverflowCount | src/components/shared/ProjectCard.tsx:63-67 | definition of the "+n" badge; BadgesAccountForAll states what it counts |
| ProjectCard.BadgesAccountForAll | src/components/shared/ProjectCard.tsx:55-67 | the "+n" badge appears exactly when an entry is hidden, and shown badges plus the overflow count equal the list length |
| ProjectCard.LinkFor | src/components/shared/ProjectCard.tsx:72-95 | a link is rendered exactly for a truthy URL and points at it |
| ProjectCard.Render | src/components/shared/ProjectCard.tsx:36-95 | featured badge exactly for featured projects; the badges are the first three technologies and the "+n" count is the number hidden (ShownBadges, OverflowCount); each link exists exactly for a truthy URL and points at it (LinkFor) |
| ProjectCard.CardHandlerCalls | src/components/shared/ProjectCard.tsx:18-24 | the card's handler runs exactly once for a click on the card surface when a handler is given, and never for a link click, since both links stop the click's propagation |
| ProjectCard.CatalogueCards | src/lib/constants.ts:41-86 | on the catalogue, every card shows three badges, with "+1" for projects 1 and 2 and "+2" for projects 3 and 4; projects 1, 2 and 4 are featured; all cards have both links |
| ExperienceSection.FormatDateRange | src/components/sections/Experience.tsx:14-23 | definition of `formatDateRange`; DateRangeParts states its parts |
| ExperienceSection.RangeOf | src/components/sections/Experience.tsx:113 | definition: the range text of a record |
| ExperienceSection.ShowsTechRow | src/components/sections/Experience.tsx:133 | definition: the technology row is drawn exactly when the record lists a technology |
| ExperienceSection.DateRangeParts | src/components/sections/Experience.tsx:14-23 | the text opens with the start date and " - ", followed by "Present" for a current position (whatever its end date), else the end date, else nothing |
| ExperienceSection.CatalogueRanges | src/lib/constants.ts:159-182 | the catalogue reads "2010 - 2020" without a technology row and "2020 - Present" with one |
| SkillCard.IconFor | src/components/shared/SkillCard.tsx:93-140 | no key: the code icon, with the fallback colour on both the wrapper and the icon; a table key: its own icon, never the code icon, coloured by the wrapper, whose colour is the colour table's entry for the key (none when the key has no entry); an unknown key: the code icon in the fallback colour inside a wrapper with the table's colour, if any |
| SkillCard.TableKeys | src/components/shared/SkillCard.tsx:34-83 | the icon table has 17 keys and the colour table 12 |
| SkillCard.ColorTableCoverage | src/components/shared/SkillCard.tsx:34-83 | every coloured key is an icon key, and exactly git, docker, vercel, ethereum and openai have an icon but no colour |
| SkillCard.IconExamples | src/components/shared/SkillCard.tsx:93-140 | "react" is cyan, "docker" has no colour, "openai" draws the brain icon, and an unknown key draws the code icon |
| SkillCard.CardIcon | src/components/shared/SkillCard.tsx:93-94 | definition: the card looks up the undeclared `iconName`, which is always missing |
| SkillCard.EverySkillTakesFallback | src/components/shared/SkillCard.tsx:93-94 | every skill card, the catalogue's included, draws the code icon in the fallback colour |
| Header.IsScrolled | src/components/layout/Header.tsx:32 | definition: scrolled strictly past 10 pixels |
| Header.ActiveAfterScroll | src/components/layout/Header.tsx:48-61 | definition of the active section after a scroll; ActiveSectionRule and ScanSections state its meaning |
| Header.FirstHit | src/components/layout/Header.tsx:52-61 | none exactly when no box contains the point; otherwise an id whose box contains it, with no earlier id hit |
| Header.FirstHitAt | src/components/layout/Header.tsx:52-61 | a hit with no earlier hit is the first hit |
| Header.ScanSections | src/components/layout/Header.tsx:46-62 | the loop with `break` yields the first section whose box contains the scroll offset plus 100, else the previous value |
| Header.ActiveSectionRule | src/components/layout/Header.tsx:46-62 | the active section is a hit section, or the previous value when nothing is hit; recomputing with the same offset and layout changes nothing |
| Header.FirstMatchWins | src/components/layout/Header.tsx:52-61 | overlapping boxes resolve to the earlier section, missing elements are skipped, and no hit keeps the previous value |
| Header.DesktopTarget | src/components/layout/Header.tsx:148-153 | definition of the desktop scroll target; DesktopAnchorClearsHeader states where the element lands |
| Header.MobileTarget | src/components/layout/Header.tsx:314-319 | definition of the mobile scroll target; MobileAnchorClearsHeader states where the element lands |
| Header.DesktopAnchorClearsHeader | src/components/layout/Header.tsx:146-154 | the target leaves the element 60 pixels below the viewport top under the scrolled header and 90 under the tall one; no scroll without an element |
| Header.MobileAnchorClearsHeader | src/components/layout/Header.tsx:311-320 | the target leaves the element 80 pixels below the viewport top; no scroll without an element |
| Header.HeaderState.constructor | src/components/layout/Header.tsx:24-67 | the menu starts closed; both scroll handlers run once, starting from "home" |
| Header.HeaderState.Scroll | src/components/layout/Header.tsx:29-67 | scrolled exactly past 10 pixels; the active section follows the first-match rule; the menu is unchanged |
| Header.HeaderState.SetOpen | src/components/layout/Header.tsx:69-84 | a changed flag locks body scrolling when opening and sets it to "unset" when closing; an unchanged flag leaves the style alone |
| Header.HeaderState.ToggleMenu | src/components/layout/Header.tsx:215 | flips the menu, and body scrolling is locked exactly while it is open; the class sets, storage and the scroll-driven state are unchanged |
| Header.HeaderState.CloseMenu | src/components/layout/Header.tsx:86 | closes the menu; scrolling is unlocked if the menu was open and the overflow style is left alone otherwise; the class sets, storage and the scroll-driven state are unchanged |
| Header.HeaderState.KeyDown | src/components/layout/Header.tsx:71-77 | only Escape, and only while the menu is open, closes it and unlocks scrolling; any other key leaves the overflow style alone; the class sets, storage and the scroll-driven state are unchanged |
| Header.HeaderState.DesktopNavClick | src/components/layout/Header.tsx:146-154 | the element lands one header height (60 or 90 pixels) below the viewport top, if it exists |
| Header.HeaderState.MobileNavClick | src/components/layout/Header.tsx:311-320 | the menu closes, unlocking scrolling only if it was open, and the element lands 80 pixels below the viewport top, if it exists; the class sets, storage and the scroll-driven state are unchanged |
| Reveal.OnEntries | src/components/RevealOnScroll.tsx:17-21 | definition of one callback: only the first entry is read, and only while the element is observed |
| Reveal.Run | src/components/RevealOnScroll.tsx:16-29 | definition of a run of callbacks; RevealIsFinal and VisibleIffSomeIntersection state its meaning |
| Reveal.RevealIsFinal | src/components/RevealOnScroll.tsx:16-22 | once revealed and unobserved, no later callback changes anything |
| Reveal.VisibleIffSomeIntersection | src/components/RevealOnScroll.tsx:16-22 | starting hidden, the element ends visible exactly when some callback led with an intersecting entry |
| Reveal.RevealElement.constructor | src/components/RevealOnScroll.tsx:29-37 | the element starts with only the "reveal" class and is observed |
| Reveal.RevealElement.OnIntersect | src/components/RevealOnScroll.tsx:17-21 | an intersecting first entry adds "visible" and stops observing; anything else changes nothing |
| Reveal.RevealElement.Unmount | src/components/RevealOnScroll.tsx:31-33 | unmounting stops observing and keeps the classes |
| ThemeToggle.SavedTheme | src/components/shared/ThemeToggle.tsx:19 | definition: the stored value under "theme", if any |
| ThemeToggle.ResolveTheme | src/components/shared/ThemeToggle.tsx:24 | definition: a non-empty stored value decides, else the system preference; StoredThemeWins and ResolveExamples state its meaning |
| ThemeToggle.PrefersDark | src/components/shared/ThemeToggle.tsx:20-22 | definition: the system preference, false when `matchMedia` does not exist |
| ThemeToggle.WithTheme | src/components/shared/ThemeToggle.tsx:28-38 | definition of the four class-list calls; WithThemeExactlyOne states their effect |
| ThemeToggle.ShowsTheme | src/components/shared/ThemeToggle.tsx:28-38 | definition: both elements carry exactly the class of the theme |
| ThemeToggle.ThemeName | src/components/shared/ThemeToggle.tsx:58 | the stored value is "dark" exactly for the dark theme, and never empty |
| ThemeToggle.StoredThemeWins | src/components/shared/ThemeToggle.tsx:19-58 | resolving a stored theme gives that theme back, whatever the system preference |
| ThemeToggle.ResolveExamples | src/components/shared/ThemeToggle.tsx:24 | only "dark" means dark; an empty or missing stored value defers to the system preference |
| ThemeToggle.WithThemeExactlyOne | src/components/shared/ThemeToggle.tsx:28-38 | exactly one of "dark" and "light" is present, matching the theme, and no other class changes |
| ThemeToggle.ApplyTheme | src/components/shared/ThemeToggle.tsx:28-38 | root and body both show exactly the classes for the theme; storage and overflow are untouched |
| ThemeToggle.ThemeButton.constructor | src/components/shared/ThemeToggle.tsx:13-14 | starts dark and unmounted, so the button is disabled |
| ThemeToggle.ThemeButton.Mount | src/components/shared/ThemeToggle.tsx:16-39 | the theme is the stored one if non-empty, else the system preference (false without `matchMedia`); it is shown on both elements; storage is only read and the overflow style is untouched |
| ThemeToggle.ThemeButton.Toggle | src/components/shared/ThemeToggle.tsx:41-59 | the theme flips, is shown on both elements and is stored, so a reload resolves to the new theme; the overflow style is untouched |
| ThemeScript.ScriptTheme | src/components/shared/ThemeScript.tsx:11-13 | the script resolves no theme, because it throws, exactly when `matchMedia` is missing |
| ThemeScript.ScriptAgreesWithButton | src/components/shared/ThemeScript.tsx:11-13 | where `matchMedia` exists, the script resolves the same theme as the button's mount step |
| ThemeScript.ScriptEffect | src/components/shared/ThemeScript.tsx:11-25 | throws exactly when `matchMedia` is missing or the body does not exist yet; the root gets the resolved theme whenever `matchMedia` exists; the body gets the same theme exactly when the script does not throw |
| ThemeScript.HeadScriptMissesBody | src/app/layout.tsx:91-92 | placed in the head, the script always throws and never themes the body; with `matchMedia` it still themes the root with the resolved theme |
| ThemeScript.RunScript | src/components/shared/ThemeScript.tsx:10-26 | performs exactly the run `ScriptEffect` describes: the root and body class sets change only where a theme reaches them, storage and overflow never change, and a run that does not throw leaves both elements showing the resolved theme |
| Dom.Page.constructor | src/app/layout.tsx:90-107 | the page starts with no theme class on either element (the body's font classes are not modelled), an empty overflow style and the storage the browser kept |
| PageInteractions.CloseModalUnderOpenMenu | src/components/sections/Projects.tsx:52-55 | closing a project's modal while the mobile menu is open leaves the menu open with body scrolling unlocked, because the modal's handler writes "unset" regardless of the header |
| Loading.Typed | src/components/LoadingScreen.tsx:14-20 | the text after n ticks is the first `min(n, 15)` characters of "<Hello World />" |
| Loading.TypedGrowsByOne | src/components/LoadingScreen.tsx:18-20 | each tick appends exactly the next character |
| Loading.FullTextAfterFifteen | src/components/LoadingScreen.tsx:14 | the full text has 15 characters and is typed after 15 ticks |
| Loading.LoadingScreen.constructor | src/components/LoadingScreen.tsx:10-12 | starts empty, cursor shown, not complete, no callback |
| Loading.LoadingScreen.TypingTick | src/components/LoadingScreen.tsx:17-28 | one more character shows; the flag is set exactly when the text is whole, and the completion timer starts then |
| Loading.LoadingScreen.CompletionTimerFires | src/components/LoadingScreen.tsx:40-49 | `onComplete` runs once, after completion |
| Loading.LoadingScreen.CursorTick | src/components/LoadingScreen.tsx:31-37 | the cursor flips and nothing else changes |

## Left out

- Network and console: the EmailJS call is an outcome event (delivered, or failed with an optional `text` and `message`); console logging and the route's one-second delay are left out.
- The route's own `try` block: only the thrown cases the body can cause are modelled, an unreadable body and a `null` body; the logging call cannot fail in the model.
- zod's e-mail regular expression is the parameter `isEmail`; the model does not fix its language.
- String length: zod's `min` and `max` count UTF-16 code units, and the model counts characters. A character outside the Basic Multilingual Plane counts twice in the source and once here, so a name of 26 such characters is rejected by the source and accepted by the model, and a one-character name of that kind goes the other way.
- Unicode: `trim`, `\s` and `toLowerCase` are ASCII versions, plus the four non-ASCII white-space characters named above; other Unicode white space and non-ASCII case mappings are not modelled.
- JSON numbers and the `limit` prop are integers: fractional values, `NaN`, `-0` and infinities are not modelled.
- JavaScript prototype keys: a key such as "constructor" would find an inherited property in `iconMap` or in a parsed body; lookups here only see own keys.
- Handler identity: `onComplete` is assumed stable, so the completion timer is not restarted by re-renders.
- Real timers, animations and layout: intervals, smooth scrolling, framer-motion, intersection thresholds and margins, and pixel geometry are events or integer parameters.
- Rendering: markup, class strings, aria labels and icons beyond the skill icon choice are not modelled.
- `Testimonial` and `RatingDocumented`: the record shape is modelled, but no core code reads it, so no operation uses it.
- `handleChange` with a field name other than the four inputs' names: the form has only those four inputs, so `HandleChange` takes a form field.
- ContactForm.ContactFormState.HandleSubmit: requires that no send is in flight, because the submit button is disabled while one is; it does not model a second submit racing the first.
- ThemeToggle.ThemeButton.Toggle: requires the button to be mounted, because the unmounted button is rendered disabled and has no handler.
- Loading.LoadingScreen.TypingTick: requires missing text, because the typing timer is only started while text is missing.
