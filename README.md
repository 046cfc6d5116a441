# GD-RealState page state, modelled in Dafny

A marketing site for a real-estate agency. Its pages are markup and animation
around a handful of small state cells, and this project models those cells and
the pure expressions that read them:

- **Carousels.** The project detail page cycles through five images with
  arrows, thumbnails, progress dots and a four-second auto-advance that runs
  only while the gallery section is shown. The home page keeps one index per
  featured project in a record keyed `project1`/`project2` and cycles it
  modulo the literal 3. Both are built on one index cycler (`Cycler`): `Next`
  is `(i + 1) % len` and `Prev` is "0 goes to `len - 1`, otherwise decrement".
- **Selectors.** The detail page's section (`images`, `video`, `floorplan`)
  and floor-plan index are only ever set from the buttons that map over the
  section list and the floor plans. The class invariant says both always
  index valid data.
- **Project id.** `parseInt(id || '1')`, modelled as a decimal-prefix parse.
  A missing or empty id gives 1. A string of digits gives its value, and
  `ToDecimal` round-trips through it. An id that does not start with a digit
  gives `NaN` (`None`).
- **Blog.** The search keeps a post when its lower-cased title or excerpt
  contains the lower-cased term. The featured post is the first featured post
  of all posts. The grid is the search results minus featured posts. The
  "no articles" message depends on the search results, not on the grid, so a
  search that matches only the featured post shows nothing at all. The
  category chip splits the slug on `-`, upper-cases the first letter of each
  piece and joins the pieces with spaces (`buying-tips` reads `Buying Tips`).
- **Navbar.** `scrolled` is recomputed as `scrollY > 20` on each scroll event.
  The menu button flips `isOpen` and any mobile link clears it. A link is
  active when the pathname equals its path exactly.
- **Forms.** Four form records (detail-page inquiry, home call-back, contact
  call-back, contact message) map field names to strings. A change handler
  rewrites one key, and a submit handler resets every key to `""`. A submit
  is reached only when the browser's `required` check passes, so each submit
  method requires its required fields to be non-empty.

Files: `wrappers.dfy` (Option), `cycler.dfy`, `forms.dfy`, `project_id.dfy`,
`project_detail.dfy`, `home.dfy`, `blog.dfy`, `navbar.dfy`, `contact.dfy`.
Pages whose state the source overwrites in place are classes, with `modifies`
frames that name the one field each handler writes. The detail, home and
contact pages also carry a `Valid()` invariant (indices in range, the forms'
key sets, the subject option). The navbar's two flags and the blog's search
term constrain nothing, so `NavbarState` and `BlogPage` have no invariant.
Filtering, finding, parsing and the label are functions with lemmas.

A non-numeric id does not fall back to 1. `parseInt` of such an id is `NaN`
(`ParseId` gives `None`), and the `|| '1'` default applies only to a missing
or empty id. The parsed id is stored but never used to pick data: the page
shows the same compiled-in project whatever the id is.

## Model

| member | source | states |
|---|---|---|
| Cycler.Next | src/pages/ProjectDetailPage.tsx:68-70 | the forward step stays in `[0, len)`, increments below the last index and wraps the last index to 0 |
| Cycler.Prev | src/pages/ProjectDetailPage.tsx:72-74 | the backward step stays in `[0, len)`, maps 0 to `len - 1` and otherwise decrements |
| Cycler.Advance | src/pages/ProjectDetailPage.tsx:14-21 | any number of forward steps (arrow presses or timer ticks) stays in `[0, len)` |
| Cycler.Retreat | src/pages/ProjectDetailPage.tsx:72-74 | any number of backward steps stays in `[0, len)` |
| Cycler.NextThenPrev | src/pages/ProjectDetailPage.tsx:68-74 | a step back undoes a step forward |
| Cycler.PrevThenNext | src/pages/ProjectDetailPage.tsx:68-74 | a step forward undoes a step back |
| Cycler.PrevIsModular | src/pages/ProjectDetailPage.tsx:72-74 | the decrement-or-wrap step equals `(i + len - 1) % len` |
| Cycler.AdvanceIsModular | src/pages/ProjectDetailPage.tsx:68-70 | `k` forward steps from `i` land on `(i + k) % len` |
| Cycler.FullCycle | src/pages/ProjectDetailPage.tsx:68-70 | `len` forward steps return to the starting index |
| Cycler.RetreatUndoesAdvance | src/pages/ProjectDetailPage.tsx:68-74 | `k` backward steps undo `k` forward steps |
| Cycler.ThreeImageScenario | src/pages/HomePage.tsx:34-39 | with three images, two steps from 0 show index 2 and the third wraps to 0 |
| Forms.Blank | src/pages/ContactPage.tsx:6-13 | the reset record has exactly the form's fields, each `""` |
| Forms.Put | src/pages/ContactPage.tsx:77 | the spread update sets the named field and leaves every other field as it was |
| Forms.Filled | src/pages/ContactPage.tsx:73-96 | a record passing the `required` check holds every required field, and an empty requirement always passes |
| Forms.FilledUnion | src/pages/ContactPage.tsx:222-298 | a record passes the check for two field sets exactly when it passes for each |
| Forms.BlankNotFilled | src/pages/ContactPage.tsx:73-96 | a freshly reset form cannot pass a non-empty `required` check |
| Forms.PutKeepsFilled | src/pages/ContactPage.tsx:222-298 | typing a non-empty value into a field keeps a form that passes `required` passing |
| ProjectId.DigitPrefix | src/pages/ProjectDetailPage.tsx:25 | the parsed part is the longest leading run of digits of the id |
| ProjectId.ToDecimal | src/pages/HomePage.tsx:194 | a number renders as a non-empty string of digits with no leading zero (only 0 renders as `0`) |
| ProjectId.ParseInt | src/pages/ProjectDetailPage.tsx:25 | the parse succeeds exactly when the string starts with a digit, and an all-digit string gives its decimal value |
| ProjectId.ParseId | src/pages/ProjectDetailPage.tsx:25 | a missing or empty id parses to 1 |
| ProjectId.DecimalRoundTrip | src/pages/ProjectDetailPage.tsx:25 | reading back the decimal rendering of `n` gives `n` |
| ProjectId.LeadingDigitPositive | src/pages/HomePage.tsx:194 | a digit string whose first digit is not `0` denotes a positive number |
| ProjectId.CanonicalDecimal | src/pages/HomePage.tsx:194 | a digit string without a leading zero is the rendering of its own value, so the rendering is the only such string for a number |
| ProjectId.ParseDigitsId | src/pages/ProjectDetailPage.tsx:25 | a non-empty all-digit id parses to its decimal value |
| ProjectId.ParseIdRoundTrip | src/pages/ProjectDetailPage.tsx:25 | every project number written as a route id parses back to itself |
| ProjectId.ParseStopsAtNonDigit | src/pages/ProjectDetailPage.tsx:25 | digits followed by a non-digit parse to the value of the digits |
| ProjectId.NonNumericIdIsNaN | src/pages/ProjectDetailPage.tsx:25 | an id that does not start with a digit parses to `NaN`, not to 1 |
| ProjectDetail.DetailPage.constructor | src/pages/ProjectDetailPage.tsx:7-11 | the page starts on image 0, the `images` section, floor plan 0 and a blank inquiry, with the id parsed from the route |
| ProjectDetail.DetailPage.NextImage | src/pages/ProjectDetailPage.tsx:68-70 | the right arrow applies `Next` over the five images and writes nothing else |
| ProjectDetail.DetailPage.PrevImage | src/pages/ProjectDetailPage.tsx:72-74 | the left arrow applies `Prev` over the five images and writes nothing else |
| ProjectDetail.DetailPage.ShowImage | src/pages/ProjectDetailPage.tsx:285-288 | a thumbnail or dot click sets the image to exactly the clicked index |
| ProjectDetail.DetailPage.Tick | src/pages/ProjectDetailPage.tsx:14-21 | a timer tick applies the same step as the right arrow in the gallery section and has no effect in any other section |
| ProjectDetail.DetailPage.SelectSection | src/pages/ProjectDetailPage.tsx:237-242 | a section button sets the section to its key and leaves the image and floor plan unchanged |
| ProjectDetail.DetailPage.SelectFloorPlan | src/pages/ProjectDetailPage.tsx:440-443 | a floor-plan button sets the clicked index, which always indexes `floorPlans` |
| ProjectDetail.DetailPage.ChangeField | src/pages/ProjectDetailPage.tsx:629 | an input changes only its own field of the inquiry |
| ProjectDetail.DetailPage.Submit | src/pages/ProjectDetailPage.tsx:76-81 | with name, email and phone filled in, submit resets all four fields to `""` and leaves the carousel and selectors unchanged |
| ProjectDetail.DetailPage.Counter | src/pages/ProjectDetailPage.tsx:352 | the displayed counter lies in `[1, 5]` and is one more than the index |
| ProjectDetail.DetailPage.DisplayedImage | src/pages/ProjectDetailPage.tsx:322 | the main image is always one of the project's images |
| ProjectDetail.DetailPage.DisplayedFloorPlan | src/pages/ProjectDetailPage.tsx:485-500 | the floor plan shown is always one of the project's floor plans |
| ProjectDetail.SectionKeys | src/pages/ProjectDetailPage.tsx:83-87 | a selected section is one of `images`, `video`, `floorplan` |
| ProjectDetail.BrowseScenario | src/pages/ProjectDetailPage.tsx:14-21 | arrows and ticks move the image, and ticks stop once another section is chosen |
| Home.ProjectKeysMatchRecord | src/pages/HomePage.tsx:194-209 | the keys built as `project${index + 1}` are distinct and are exactly the record's keys |
| Home.ProjectKey | src/pages/HomePage.tsx:194-209 | the key is `project` followed by digits without a leading zero that parse back to `index + 1` |
| Home.ProjectKeyUnique | src/pages/HomePage.tsx:194-209 | any string of that shape naming position `index` is exactly the key |
| Home.ProjectKeyInjective | src/pages/HomePage.tsx:194-209 | different project positions give different keys |
| Home.CycleLengthMatchesImages | src/pages/HomePage.tsx:16-37 | the literal 3 is the length of each featured project's image list |
| Home.HomePage.constructor | src/pages/HomePage.tsx:8-9 | both indices start at 0 and the call-back form is blank |
| Home.HomePage.NextImage | src/pages/HomePage.tsx:34-39 | the named project's index becomes `(old + 1) % 3` and the other project's index is untouched |
| Home.HomePage.PrevImage | src/pages/HomePage.tsx:41-46 | the named project's index goes from 0 to 2, otherwise decrements, and the other index is untouched |
| Home.HomePage.DisplayedImage | src/pages/HomePage.tsx:194 | the image looked up for a featured project is always one of its images |
| Home.HomePage.ChangeField | src/pages/HomePage.tsx:309 | an input changes only its own field |
| Home.HomePage.Submit | src/pages/HomePage.tsx:48-53 | with name and phone filled in, submit resets both to `""` |
| Home.ThreePressesScenario | src/pages/HomePage.tsx:34-39 | three right-arrow presses on one project restore the whole index record |
| Blog.Filter | src/pages/BlogPage.tsx:77 | `filter` keeps exactly the elements satisfying the callback and never grows the list |
| Blog.Find | src/pages/BlogPage.tsx:83 | `find` returns an element satisfying the callback, or nothing exactly when no element does |
| Blog.FilterMultiset | src/pages/BlogPage.tsx:77 | `filter` keeps every copy of a kept element and no copy of any other element |
| Blog.FilterIsSubsequence | src/pages/BlogPage.tsx:77 | a filtered list is an order-preserving subsequence of its input |
| Blog.FindIsFirst | src/pages/BlogPage.tsx:83 | the element `find` returns has no earlier element satisfying the callback |
| Blog.FilterFusion | src/pages/BlogPage.tsx:84 | filtering the filtered list again equals one filter by both conditions |
| Blog.FilterCongruent | src/pages/BlogPage.tsx:78-79 | two callbacks that agree on every element filter to the same list |
| Blog.FilterKeepsAll | src/pages/BlogPage.tsx:77-81 | a callback every element satisfies keeps the whole list |
| Blog.Includes | src/pages/BlogPage.tsx:78-79 | every text contains the empty term, and a contained term is no longer than the text |
| Blog.MatchesSearch | src/pages/BlogPage.tsx:78-79 | the empty term matches every post, and a matching term fits in the title or the excerpt |
| Blog.FilteredPosts | src/pages/BlogPage.tsx:77-81 | a post is kept iff its lower-cased title or excerpt contains the lower-cased term, each kept post as often as it occurs in the input, and the results are a subsequence of the posts |
| Blog.FeaturedPost | src/pages/BlogPage.tsx:83 | the featured post is a featured post of the list with no featured post before it, and there is none exactly when no post is featured |
| Blog.RegularPosts | src/pages/BlogPage.tsx:84 | the grid holds exactly the non-featured search results, with their multiplicities and in their order |
| Blog.ShowsFeatured | src/pages/BlogPage.tsx:126 | the featured block shows exactly when the term is empty and some post is featured |
| Blog.ShowsNoArticles | src/pages/BlogPage.tsx:243 | the "no articles" message shows exactly when no post matches the term |
| Blog.EmptySearchKeepsAll | src/pages/BlogPage.tsx:77-81 | an empty search keeps every post |
| Blog.SearchIgnoresCase | src/pages/BlogPage.tsx:78-79 | terms that differ only in ASCII letter case give the same results |
| Blog.UpperIsRecasing | src/pages/BlogPage.tsx:78-79 | an upper-cased term differs from the original only in case |
| Blog.RegularPostsOfSearch | src/pages/BlogPage.tsx:77-84 | the grid is the posts that match the term and are not featured, in their original order |
| Blog.NoArticlesMeansEmptyGrid | src/pages/BlogPage.tsx:243 | when the "no articles" message shows, the grid is empty |
| Blog.OnlyFeaturedMatchesShowNothing | src/pages/BlogPage.tsx:126-243 | a non-empty search matching only featured posts shows no featured block, no grid item and no "no articles" message |
| Blog.FeaturedOfBlogPosts | src/pages/BlogPage.tsx:8-19 | on the site's posts the featured post is the first post |
| Blog.CategoryLabel | src/pages/BlogPage.tsx:231 | for every slug, split, capitalize and join equal the character-by-character label, which has the slug's length and no `-` |
| Blog.LabelCharsNoDash | src/pages/BlogPage.tsx:231 | the character-by-character label never holds a `-` |
| Blog.LabelCharsAt | src/pages/BlogPage.tsx:231 | each `-` becomes a space, the first character of each piece is upper-cased, and every other character is kept |
| Blog.CategoryLabelShape | src/pages/BlogPage.tsx:231 | for a slug without spaces, the label has a space exactly where the slug has a `-` |
| Blog.LabelKeepsPieceCount | src/pages/BlogPage.tsx:231 | for a slug without spaces, the label has as many words as the slug has pieces |
| Blog.BlogPage.constructor | src/pages/BlogPage.tsx:6 | the search term starts empty |
| Blog.BlogPage.ChangeSearch | src/pages/BlogPage.tsx:117 | typing sets the term to the input's value |
| Blog.BlogPage.ClearSearch | src/pages/BlogPage.tsx:252-254 | the clear button empties the term, so every post is listed again and the featured block returns |
| Navbar.PathsDistinct | src/components/Navbar.tsx:19-25 | the five link paths are pairwise distinct |
| Navbar.IsActive | src/components/Navbar.tsx:69 | when a listed link is active, every other link's path differs from the pathname |
| Navbar.AtMostOneActive | src/components/Navbar.tsx:69 | at most one link is active for any pathname |
| Navbar.DetailPathActivatesNone | src/components/Navbar.tsx:156 | `/projects/2` activates no link |
| Navbar.NavbarState.constructor | src/components/Navbar.tsx:7-8 | the menu starts closed and the bar starts unscrolled |
| Navbar.NavbarState.HandleScroll | src/components/Navbar.tsx:12-14 | after a scroll event `scrolled` is `scrollY > 20`, and the menu is unchanged |
| Navbar.NavbarState.ToggleMenu | src/components/Navbar.tsx:104 | the menu button flips `isOpen` and leaves `scrolled` unchanged |
| Navbar.NavbarState.CloseMenu | src/components/Navbar.tsx:154 | a mobile link closes the menu whatever its state and leaves `scrolled` unchanged |
| Navbar.MenuAndScrollScenario | src/components/Navbar.tsx:12-14 | two menu presses restore the menu, and an offset of exactly 20 is not scrolled |
| Contact.ContactPage.constructor | src/pages/ContactPage.tsx:6-13 | both forms start with every field `""` |
| Contact.ContactPage.ChangeCallField | src/pages/ContactPage.tsx:77 | a call-back input changes only its own field and leaves the contact form unchanged |
| Contact.ContactPage.ChangeContactField | src/pages/ContactPage.tsx:226 | a contact input changes only its own field, the subject stays an offered option, and the call-back form is unchanged |
| Contact.ContactPage.HandleCallSubmit | src/pages/ContactPage.tsx:15-20 | with name and phone filled in, submit resets name, phone and address and leaves the contact form unchanged |
| Contact.ContactPage.HandleContactSubmit | src/pages/ContactPage.tsx:22-27 | with name, email, subject and message filled in, submit resets all five fields and leaves the call-back form unchanged |
| Contact.FilledSubjectIsChosen | src/pages/ContactPage.tsx:268-282 | a contact form that passes `required` has chosen a real subject, not the placeholder |

## Left out

- Animation, styling, video elements and the `Math.random()` particle layouts: presentation only, and floating point.
- Timer scheduling and cleanup (`setInterval`/`clearInterval`) and the scroll listener's subscription: only the effect of one tick (`Tick`) or one scroll event (`HandleScroll`) is modelled, not timing or lifecycle.
- `console.log` and `alert` in the submit handlers: output only. The submit methods model the reset.
- Routing (`useParams`, `useLocation`, `Link`): the id and the pathname are plain inputs.
- ProjectId.ParseId: models `parseInt` only for strings without leading blanks, sign or `0x` radix prefix. Those forms are parsed as a digit prefix here, so ` 12` and `-3` give `NaN` and `0x1A` gives 0.
- ProjectId.ToDecimal: numbers are unbounded naturals. A JavaScript number is a double: it is exact only below 2^53, and a template literal writes it in exponent form from 1e21. The rendering matches the program only for safe integers (below 2^53).
- ProjectId.ParseIdRoundTrip: for the same reason the round trip holds in the program only for `n` below 2^53.
- ProjectId.ParseInt: the exact decimal value of an all-digit string holds in the program only below 2^53. `parseInt` rounds a longer digit string to the nearest double, while `DecimalValue` stays exact.
- ProjectId.ParseDigitsId: the same rounding applies, so an all-digit id parses to its exact value only below 2^53.
- Unicode case mapping in `toLowerCase`/`toUpperCase`: only ASCII letters change case.
- Browser validation of `type="email"` fields: browser behaviour. `required` is modelled as "non-empty".
- A `scrollY` of `NaN` or infinity: the offset is a real number.
- The home page's `currentProject` state: it is never read.
- Keys other than `project1`/`project2` passed to the home page arrows: no caller builds one, so the arrow methods require a record key.
- A zero-length image list: every list is non-empty compiled-in data, so the cycler requires an index below the length.
- Post author, date, read time and image, and the full image URLs: display only. Image URLs are shortened to their photo names.
- src/pages/ProjectsPage.tsx and src/pages/AboutPage.tsx: static data and markup with no state.
