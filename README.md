# Portfolio site — a Dafny model of its page logic

This project models the client-side logic of a personal portfolio site.
The site is a single-page application, and one settings document drives all
of its content.

The model covers these parts of the site:

- **Portfolio page**: the tag bar is built from every project's tags. Each
  tag appears once, in first-occurrence order. The project grid is filtered
  by the selected tag. A `null` selection or the empty string selects every
  project.
- **Blog page**: the post list is narrowed by a search over title and
  excerpt. Both are lower-cased and compared as substrings. Each listed post
  links to `/blog/<slug>`. An empty result shows "No blog posts found."
- **Post page**: the first post whose slug equals the route parameter is
  rendered through the Markdown converter. Otherwise the not-found view is
  shown, and the converter is not called.
- **Contact form**: four controlled fields, and the phone field's `pattern`
  (`[0-9\s\-\(\)\+]{6,}`, anchored at both ends). The submission handler
  posts the fields. Once a response arrives, it raises the success flag,
  clears the fields and schedules the flag's reset.
- **Footer**: description, location, email and link lists with their
  fallbacks, and the icon chosen for each social link.
- **Header**: site title, logo and navigation with their fallbacks, the
  theme button, and the mobile menu's open/closed state.
- **DynamicButton**: prop defaults, the size and variant style tables, and
  the base style. It renders as a link or as a button, and its hover
  handlers restore the rendered colours.

Three kinds of JavaScript defaulting are kept apart:

- `x || fallback` on a string falls back when the value is absent or `""`
  (`Common.OrDefault`).
- `x || fallback` on an array falls back only when the value is absent,
  because an empty array is truthy (`Common.OrList`).
- A destructuring default applies only to `undefined` (`Option.GetOr`).

State cells become classes whose methods state the new state:
`Portfolio.TagSelection`, `Blog.SearchBox`, `Contact.ContactForm`,
`Header.MobileMenu` and `DynamicButton.HoverTarget`. The rest is pure
functions with lemmas.

Three behaviours of the code are easy to miss, and the model follows them:

- A failed submission is only logged with `console.error`, and nothing is
  shown to the visitor.
- `fetch` resolves on every HTTP status, so a 4xx or 5xx reply counts as a
  success. Only a network failure (a rejected promise) takes the error path.
- Slugs are not required to be unique. When they repeat, the first post
  wins.

## Model

| member | source | states |
|---|---|---|
| Common.Option.GetOr | client/src/components/DynamicButton.tsx:27-33 | a destructuring default replaces only a missing value; a given value is kept |
| Common.OrDefault | client/src/components/Footer.tsx:28-29 | a string logical-or default: the value when it is present and non-empty, else the fallback; the result is empty only when both are |
| Common.OrList | client/src/components/Footer.tsx:30-37 | an array logical-or default: an empty list is kept, and only a missing one falls back |
| Common.Truthy | client/src/components/Footer.tsx:28-29 | definition, no contract: a string is truthy when it is present and non-empty |
| Common.ToLower | client/src/pages/Blog.tsx:16-17 | `toLowerCase` keeps the length and maps each character to its lower-case form |
| Common.ToLowerIdempotent | client/src/pages/Blog.tsx:16-17 | lower-casing twice is lower-casing once |
| Common.Contains | client/src/pages/Blog.tsx:16-17 | `includes`: the part occurs at some position, so it is no longer than the text |
| Common.ContainsEmpty | client/src/pages/Blog.tsx:16-17 | every string includes the empty search term |
| Common.ContainsSelf | client/src/pages/Blog.tsx:16 | a string includes itself |
| Common.ContainsTransitive | client/src/pages/Blog.tsx:16-17 | a string that includes a longer term also includes every part of that term |
| Common.ContainsLower | client/src/pages/Blog.tsx:16-17 | a match survives lower-casing both sides |
| Common.SplitOn | client/src/components/DynamicButton.tsx:110 | `split(" ")` yields at least one piece, and no piece contains the separator |
| Common.SplitOnJoin | client/src/components/DynamicButton.tsx:110 | splitting pieces joined by the separator gives the pieces back, when none contains it |
| Common.JoinSplitOn | client/src/components/DynamicButton.tsx:110 | joining the pieces of a split gives the string back |
| Sequences.Filter | client/src/pages/Blog.tsx:15-18 | `filter` keeps no more elements than it is given, and only elements of the input that satisfy the predicate |
| Sequences.FilterIsSubsequence | client/src/pages/Portfolio.tsx:17 | `filter` keeps the input's order: its result is a subsequence of the input |
| Sequences.FilterCount | client/src/pages/Blog.tsx:15-18 | each kept element occurs as often as in the input, and a dropped one never occurs |
| Sequences.FilterMembership | client/src/pages/Portfolio.tsx:17 | an element is in the result exactly when it is in the input and satisfies the predicate |
| Sequences.FilterKeepsAll | client/src/pages/Blog.tsx:15-18 | a predicate that holds everywhere keeps the whole input |
| Sequences.FilterCongruent | client/src/pages/Blog.tsx:15-18 | predicates that agree on the input give the same result |
| Sequences.FilterMonotone | client/src/pages/Blog.tsx:15-18 | a stricter predicate keeps a subsequence of what a looser one keeps |
| Sequences.FlatMap | client/src/pages/Portfolio.tsx:14 | definition, no contract: `flatMap`, the lists of the elements concatenated in order; its meaning is stated by FlatMapMembership |
| Sequences.FlatMapMembership | client/src/pages/Portfolio.tsx:14 | a value is in the flattened list exactly when some element's list holds it |
| Sequences.Distinct | client/src/pages/Portfolio.tsx:14 | `Array.from(new Set(xs))` has the same members as `xs` and no duplicates |
| Sequences.DistinctFirstOccurrenceOrder | client/src/pages/Portfolio.tsx:14 | `Set` keeps insertion order: an earlier distinct value first occurs before a later one |
| Sequences.IsSubsequenceReflexive | client/src/pages/Portfolio.tsx:16-18 | the unfiltered list is a subsequence of itself |
| Portfolio.ProjectsOf | client/src/pages/Portfolio.tsx:8-13 | the project list, or the empty list when the section or its `projects` is missing |
| Portfolio.HasTag | client/src/pages/Portfolio.tsx:17 | `p.tags?.includes(tag)` holds exactly when the tag is in TagsOf, the project's tags or none; a project without `tags` has no tag |
| Portfolio.TagsOf | client/src/pages/Portfolio.tsx:14 | definition, no contract: a project's tags, or none when it has no `tags` |
| Portfolio.AllTags | client/src/pages/Portfolio.tsx:14 | the tag bar holds no duplicates, and a tag is in it exactly when some project carries it |
| Portfolio.AllTagsFirstOccurrenceOrder | client/src/pages/Portfolio.tsx:14 | tags are listed in the order of their first occurrence across the projects |
| Portfolio.ShowsTagBar | client/src/pages/Portfolio.tsx:31 | definition, no contract: the tag bar is rendered when the tag list is non-empty; its meaning is stated by ShowsTagBarIff |
| Portfolio.ShowsTagBarIff | client/src/pages/Portfolio.tsx:31 | the tag bar is shown exactly when some project has a non-empty tag list |
| Portfolio.MissingProjectsHideTagBar | client/src/pages/Portfolio.tsx:8-31 | without projects the grid is empty and the tag bar hidden, whatever tag is selected |
| Portfolio.FilteredProjects | client/src/pages/Portfolio.tsx:16-18 | no (or an empty) selection shows every project; otherwise exactly the projects carrying the tag, in order |
| Portfolio.FilteredProjectsCount | client/src/pages/Portfolio.tsx:17 | with a tag selected, each project carrying it is shown as often as it is listed, others never |
| Portfolio.TagSelection.constructor | client/src/pages/Portfolio.tsx:9 | the selection starts at `null` |
| Portfolio.TagSelection.SelectAll | client/src/pages/Portfolio.tsx:35 | "All Projects" clears the selection |
| Portfolio.TagSelection.SelectTag | client/src/pages/Portfolio.tsx:37 | a tag's button selects that tag |
| Portfolio.TagSelection.Shown | client/src/pages/Portfolio.tsx:16-18 | the grid shows all projects with no selection, and always a subsequence of them |
| Blog.PostsOf | client/src/pages/Blog.tsx:8-13 | the post list, or the empty list when the section or its `posts` is missing |
| Blog.MatchesSearch | client/src/pages/Blog.tsx:16-17 | definition, no contract: the lower-cased title or the lower-cased excerpt includes the lower-cased term |
| Blog.FilteredPosts | client/src/pages/Blog.tsx:15-18 | the listed posts keep their order, and a post is listed exactly when its title or excerpt includes the term, ignoring case |
| Blog.FilteredPostsCount | client/src/pages/Blog.tsx:15-18 | each matching post is listed as often as it occurs, others never |
| Blog.EmptySearchKeepsAll | client/src/pages/Blog.tsx:9-18 | the initial empty search lists every post |
| Blog.MatchesSearchNarrowing | client/src/pages/Blog.tsx:16-17 | a post matching a longer term matches every part of it |
| Blog.SearchNarrowing | client/src/pages/Blog.tsx:15-18 | typing more never adds posts: the longer term's list is a subsequence of the shorter's |
| Blog.SearchByTitleFindsPost | client/src/pages/Blog.tsx:15-17 | searching for a post's own title, or its lower-cased form, lists that post |
| Blog.SearchIgnoresCase | client/src/pages/Blog.tsx:16-17 | a term and its lower-cased form list the same posts |
| Blog.PostHref | client/src/pages/Blog.tsx:48 | a post's link is `/blog/` followed by exactly its slug |
| Blog.ListedHrefs | client/src/pages/Blog.tsx:47-48 | one link per listed post, in the listed order |
| Blog.ShowsNoPostsMessage | client/src/pages/Blog.tsx:61 | definition, no contract: "No blog posts found." is rendered when the filtered list is empty |
| Blog.MissingPostsShowsNoPostsMessage | client/src/pages/Blog.tsx:61 | without posts the "No blog posts found." message is shown for every term |
| Blog.SearchBox.constructor | client/src/pages/Blog.tsx:9 | the search term starts empty |
| Blog.SearchBox.Input | client/src/pages/Blog.tsx:40 | typing sets the term to the input's value |
| BlogPost.FindPost | client/src/pages/BlogPost.tsx:10 | a found post is in the list and has the slug; nothing is found exactly when no post has it |
| BlogPost.FindPostEarliest | client/src/pages/BlogPost.tsx:10 | `find` returns the earliest post with the slug |
| BlogPost.RenderBlogPost | client/src/pages/BlogPost.tsx:9-17 | not found exactly when no post has the slug, with nothing converted; otherwise the article of the earliest post with that slug, whose HTML is the converter's output for its content, the only converter input |
| BlogPost.MissingPostsNotFound | client/src/pages/BlogPost.tsx:9-14 | without a `blog` section or `posts`, every slug is not found |
| BlogPost.IsRouteSegment | client/src/App.tsx:24-25 | definition, no contract: a slug that the URL parser leaves as it is and that fills the single `:slug` segment: non-empty, not `.` or `..`, and printable ASCII without `/`, `\`, `?`, `#`, `%` or a character the parser percent-encodes |
| BlogPost.RouteSegmentExamples | client/src/App.tsx:24-25 | `.`, `..`, the empty slug and slugs with a back-slash, a tab or a percent escape are not route segments; `my-first-post` and `...` are |
| BlogPost.ListedPostResolves | client/src/pages/BlogPost.tsx:9-17 | every link on the Blog page whose slug is a route segment resolves to an article; with unique slugs, it is the listed post |
| Contact.FormData.With | client/src/pages/Contact.tsx:101 | a field's `onChange` replaces that field only |
| Contact.PhoneCharsAtLeast | client/src/pages/Contact.tsx:117 | the phone character class repeated at least n times, anchored at both ends, accepts exactly the values of at least n characters that are all in the phone class |
| Contact.IsPhoneChar | client/src/pages/Contact.tsx:117 | definition, no contract: the character class `[0-9\s\-\(\)\+]`, with `\s` as ECMAScript's whitespace and line terminators |
| Contact.PhoneMatchesPattern | client/src/pages/Contact.tsx:116-117 | definition, no contract: the anchored pattern with at least six repetitions; its meaning is stated by PhoneCharsAtLeast |
| Contact.DigitCount | client/src/pages/Contact.tsx:118 | the digits of the value, which are all of its characters exactly when every character is a digit |
| Contact.PatternCountsCharacters | client/src/pages/Contact.tsx:116-118 | the pattern counts characters, not digits: "------" passes with no digit, the page's own number passes, "12345" and "123456x" fail |
| Contact.ValidatedPhone | client/src/pages/Contact.tsx:113-118 | a form the browser lets through has a phone of at least six allowed characters |
| Contact.PassesValidation | client/src/pages/Contact.tsx:98-127 | definition, no contract: the browser runs `onSubmit` only when all four `required` fields are non-empty, the phone matches its pattern and the email passes its type check |
| Contact.ClearedFormFailsValidation | client/src/pages/Contact.tsx:101-127 | the cleared form does not pass the `required` checks |
| Contact.ContactForm.Valid | client/src/pages/Contact.tsx:32-34 | definition, no contract: the success message is transient, since while it shows a reset is scheduled; every method below keeps it |
| Contact.ContactForm.constructor | client/src/pages/Contact.tsx:17-18 | empty fields, no success message, nothing in flight, no pending reset, and the invariant holds |
| Contact.ContactForm.Edit | client/src/pages/Contact.tsx:101-127 | editing one field changes only that field, also while a request is in flight |
| Contact.ContactForm.Send | client/src/pages/Contact.tsx:27-31 | the endpoint is set, so the current fields are posted and one more request is in flight; the form stays as it is |
| Contact.ContactForm.Settle | client/src/pages/Contact.tsx:31-37 | a request settles: a response of any status clears the fields as they are now, raises the flag and schedules one reset; a network failure changes nothing else |
| Contact.ContactForm.Submit | client/src/pages/Contact.tsx:98-127 | the handler runs only on a form passing validation; otherwise no request and no change |
| Contact.ContactForm.ResetTimerFires | client/src/pages/Contact.tsx:34 | the timer hides the success message, even one raised by a later success, and leaves the fields alone |
| Contact.SendOnce | client/src/pages/Contact.tsx:27-39 | fill, send, receive a reply and let the timer fire: the request carries what was typed, and the form ends empty without the message |
| Contact.EditWhileInFlight | client/src/pages/Contact.tsx:31-33 | a field edited while the request is in flight is cleared by the reply without ever being sent |
| Contact.DoubleSubmit | client/src/pages/Contact.tsx:27-33 | pressing "Send Message" twice before the reply sends the same fields twice |
| Footer.SocialIcon | client/src/components/Footer.tsx:41-54 | GitHub, LinkedIn and Twitter icons exactly for those lower-cased names; every other name gets the mail icon |
| Footer.SocialIconIgnoresCase | client/src/components/Footer.tsx:42 | names equal up to ASCII case get the same icon |
| Footer.SocialIconOfLowered | client/src/components/Footer.tsx:42 | lower-casing the name first changes nothing |
| Footer.UnknownNameShowsMail | client/src/components/Footer.tsx:49-52 | an unlisted name shows what "mail" shows |
| Footer.SocialIconExamples | client/src/components/Footer.tsx:41-54 | concrete spellings: "GitHub" and "GITHUB" are GitHub, "Instagram" is mail |
| Footer.FooterContent | client/src/components/Footer.tsx:24-37 | strings fall back when absent or empty; the link lists fall back only when absent; one social button per link, in order, with its icon |
| Footer.EmptyQuickLinksStayEmpty | client/src/components/Footer.tsx:31 | an empty quick-link list stays empty instead of falling back |
| Header.HeaderBranding | client/src/components/Header.tsx:24-32 | title and logo fall back when absent or empty; navigation falls back only when absent |
| Header.ThemeButton | client/src/components/Header.tsx:156-190 | shown exactly when switchable; light mode offers dark mode with the moon icon, dark mode offers light mode |
| Header.MenuButtonTitle | client/src/components/Header.tsx:205 | "Close menu" exactly when the menu is open |
| Header.MobileMenu.constructor | client/src/components/Header.tsx:20 | the menu starts closed |
| Header.MobileMenu.Toggle | client/src/components/Header.tsx:194 | the menu button flips the state |
| Header.MobileMenu.Close | client/src/components/Header.tsx:34-36 | `handleMenuClose` closes the menu |
| Header.MobileMenu.MobileLinks | client/src/components/Header.tsx:213-238 | every navigation link while open, none while closed |
| Header.ToggleTwice | client/src/components/Header.tsx:194 | two presses leave the menu as it was |
| Header.ChooseMobileLink | client/src/components/Header.tsx:227-232 | choosing a mobile link closes the menu and hides its links |
| DynamicButton.ResolveProps | client/src/components/DynamicButton.tsx:27-33 | an omitted prop takes its default (primary, md, left, not disabled, not full width, no class), a given one is kept |
| DynamicButton.SizeConfig | client/src/components/DynamicButton.tsx:37-41 | padding and font size per size |
| DynamicButton.VariantStyles | client/src/components/DynamicButton.tsx:44-73 | colours, border and hover colours per variant |
| DynamicButton.VariantBordersWellFormed | client/src/components/DynamicButton.tsx:44-73 | every border shorthand in the table has three space-free parts |
| DynamicButton.BorderColorToken | client/src/components/DynamicButton.tsx:110 | the third token of a shorthand, if any, holds no space |
| DynamicButton.BorderColorTokenOfShorthand | client/src/components/DynamicButton.tsx:110 | the third token of a well-formed shorthand is its colour |
| DynamicButton.BaseButtonStyle | client/src/components/DynamicButton.tsx:78-97 | size and variant styles, full or auto width, and a "not-allowed" cursor at opacity 0.6 exactly when disabled |
| DynamicButton.ButtonContent | client/src/components/DynamicButton.tsx:115-121 | the icon on its side, when there is one, around the children, or the label when the children are absent or empty |
| DynamicButton.ButtonContentShape | client/src/components/DynamicButton.tsx:115-121 | exactly one text part, and the icon once on its side or not at all |
| DynamicButton.Render | client/src/components/DynamicButton.tsx:123-150 | a link exactly when `href` is non-empty, with neither click handler nor `disabled`; otherwise a button carrying both |
| DynamicButton.HoverTarget.constructor | client/src/components/DynamicButton.tsx:75-97 | the rendered element shows the variant's background and border colour |
| DynamicButton.HoverTarget.MouseEnter | client/src/components/DynamicButton.tsx:99-106 | hover colours, a lift and a large shadow, unless disabled, when nothing changes |
| DynamicButton.HoverTarget.MouseLeave | client/src/components/DynamicButton.tsx:108-113 | the base background, the border's third token as colour, no lift and a small shadow |
| DynamicButton.HoverInAndOut | client/src/components/DynamicButton.tsx:99-113 | hovering in and out restores the rendered background and border colour, for every variant, disabled or not |

## Left out

- The settings loader, `useSettings` and the theme context are not part of this model. The settings sections, the theme and the `switchable` flag are inputs.
- `toggleTheme` is not part of this model. Only the theme button's presence, title and icon are modelled.
- The Markdown converter (`convertMarkdownToHtml`) is not part of this model. It is a function parameter, and the page records what it hands to it.
- Home.tsx, About.tsx, DynamicLink.tsx, NotFound.tsx, App.tsx routing and main.tsx are not part of this model. The one exception is the shape of the `/blog/:slug` route (App.tsx:24-25), which BlogPost.IsRouteSegment states for a single slug.
- BlogPost.ListedPostResolves: the route parameter is taken as the text after `/blog/`, so the lemma covers only slugs that are route segments (BlogPost.IsRouteSegment). The other slugs are not modelled. An empty slug links to the Blog list itself, and the URL parser resolves `.` to the Blog list and `..` to the Home page. A slug with `/` or `\` does not fit the single `:slug` segment, and one with `?` or `#` is cut at the query or fragment. Tabs and line breaks are dropped, so the router may see another post's slug. A slug with `%`, a space, another control character, a non-ASCII character or a character the parser percent-encodes goes through encoding and the router's decoding.
- Contact.ContactForm.Settle: the `fetch` call is split into sending and settling; how it settles is an input, its outcome, and settlements happen in any order relative to other events. The JSON encoding of the body, the headers and the `console.error` logging are not modelled.
- Contact.ContactForm.ResetTimerFires: the 3000 ms delay is not modelled. A scheduled reset is counted and fires as a discrete event, in any order relative to other events.
- Contact.PassesValidation: the browser's `type="email"` check is the boolean parameter `emailAccepted`. The browser's value sanitisation is not modelled: the name, phone and email inputs lose their line breaks, and the email input also loses leading and trailing whitespace, before `required` is checked.
- Common.ToLower: only ASCII letters are lower-cased. Unicode case mapping outside ASCII is not modelled.
- Inline styles other than those the model's contracts name are left out, as are `clamp()` sizes and the hover handlers of other elements (cards, links, the submit button). Icons are plain values.
- Page titles and subtitles, the Contact page's contact details and defaults, and the Footer's name, year and `mailto:` link are not modelled. They follow the same `||` pattern as `Common.OrDefault`.
- Project cards (image, live and repository buttons) and post cards (date, excerpt, image) are not modelled beyond which items are listed and in what order.
- React keys, re-rendering and the DOM are not modelled.
