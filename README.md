# Events and blog site core, modelled in Dafny

This project models the core logic of a small Next.js/React site that shows
events and blog posts. The content comes from a Sanity headless CMS when the
CMS is configured, and from bundled mock data otherwise. The model covers:

- the content types (`Event`, `BlogPost`, `SanityImage`, `Author`,
  `PortableTextBlock`, `Category`) as datatypes in `Content`;
- the event list filter of the events page (`EventsListClient`): search
  without regard to case over title, location and description; an exact
  event type; membership of a tag;
- the filter panel's state (`EventFilters`), as a class. Each change
  replaces one key and emits the new state. A tag chip toggles the tag;
- the featured selections of the two home pages (`HomePage`, `AppPage`);
- the fail-soft fetch (`Sanity`). Mock data is returned when the CMS is not
  configured or the fetch fails;
- the six GROQ query descriptors as data, with one evaluation function
  (`Queries.Eval`) over an in-memory document store. Filtering, ordering,
  windowing, `[0]` selection and projection are modelled; ordering uses a
  stable sort (`Sorting`);
- the image URL resolvers (`ImageUrls`) and the stub image helper
  (`StubImage`).

The supporting modules are `Wrappers` (Option/Result), `Sequences`
(prefixes and subsequences) and `Text`. `Text` has ASCII lower-casing,
`includes` with its proof against an index-based definition, and
lexicographic string order.

The process environment, the remote CMS and the image URL renderer are not
modelled as code. They are parameters: `Sanity.Environment` holds the
environment variables. A `Sanity.Store` function stands for what the CMS
client's `fetch` returns. An `ImageUrls.UrlRenderer` function stands for the
image builder's `url()`.

Where the documented intent of the system and the code differ, the model
follows the code:

- the two home pages use different fallback policies for featured posts
  (`AppPage.PostPoliciesDiffer`);
- the `'production'` dataset default cannot take effect for a live client,
  because a client exists only when the dataset is set and non-empty
  (`Sanity.LiveClientUsesEnvironment`);
- constraints that are documented as intended for the content but that the
  code never checks are not assumed anywhere. These are an end date no
  earlier than the start date, a non-negative capacity, and unique slugs.
  Lookups by slug are proved to return at most one document whatever the
  store holds.

## Model

| member | source | states |
|---|---|---|
| EventFilters.WithField | components/events/EventFilters.tsx:48-49 | the named key takes the new value; the other two keys are unchanged |
| EventFilters.AfterTagClick | components/events/EventFilters.tsx:54-56 | clicking the active tag clears it, clicking another tag selects it; search and event type are kept |
| EventFilters.TagClickTwice | components/events/EventFilters.tsx:54-56 | clicking a chip twice clears the tag when that chip was not selected before, and selects it again when it was; search and event type are kept |
| EventFilters.EventFilters.constructor | components/events/EventFilters.tsx:42-46 | the panel starts with all three keys empty and has emitted nothing |
| EventFilters.EventFilters.HandleFilterChange | components/events/EventFilters.tsx:48-52 | the state becomes the old state with one key replaced, and exactly that new state is appended to what was emitted to the parent |
| EventFilters.EventFilters.HandleTagClick | components/events/EventFilters.tsx:54-57 | the tag toggles as in `AfterTagClick`, and the resulting state is the one emitted |
| EventsListClient.FilteredEvents | components/events/EventsListClient.tsx:25-51 | the result keeps the input order (a subsequence); an event is in it exactly when it is in the input and passes the filter; each kept event keeps its number of occurrences, and every other event has none |
| EventsListClient.SearchMatches | components/events/EventsListClient.tsx:28-34 | the search matches exactly when the lower-cased search string occurs at some offset of the lower-cased title, location or description, an absent field matching nothing; an empty search matches every event |
| EventsListClient.KeepEvent | components/events/EventsListClient.tsx:26-50 | the early-return chain keeps an event exactly when it passes search, type and tag together, each test stated independently by index and vacuous when its key is empty |
| EventsListClient.SearchIgnoresCase | components/events/EventsListClient.tsx:28-34 | lower-casing the search string first keeps exactly the same events |
| EventsListClient.EmptyFiltersKeepAll | components/events/EventsListClient.tsx:28-47 | with all three keys empty the list is returned unchanged |
| EventsListClient.InitialStateShowsAll | components/events/EventsListClient.tsx:19-23 | the initial filter state shows every event |
| EventsListClient.ClearingWeakensPredicate | components/events/EventsListClient.tsx:28-47 | an event kept under some filters is still kept after any key is cleared |
| EventsListClient.ClearingNeverShrinks | components/events/EventsListClient.tsx:25-51 | the list shown before a key is cleared is a subsequence of the list after, so it is no longer |
| EventsListClient.SummitAndJam | components/events/EventsListClient.tsx:28-47 | of an "AI Summit" in Berlin tagged ai and tech and a "Design Jam" in Paris tagged design, the search "ai" keeps only the summit, matched in upper case, and the tag "design" keeps only the jam |
| Selections.OnlyFeatured | src/pages/HomePage.tsx:35 | the posts whose `featured` is true, in order, each as many times as the list holds it; the result is empty exactly when no post is featured |
| HomePage.FeaturedEvents | src/pages/HomePage.tsx:32 | the first three mock events, or all of them when there are fewer |
| HomePage.FeaturedPosts | src/pages/HomePage.tsx:35-37 | at most three posts, in mock order; the first three featured posts when any post is featured, otherwise the first three posts; empty only when there are no posts |
| AppPage.FallbackEvents | app/page.tsx:25 | the mock fallback is the first three mock events |
| AppPage.FallbackPosts | app/page.tsx:34 | at most three posts, all featured, in mock order; empty exactly when no mock post is featured |
| AppPage.GetFeaturedEvents | app/page.tsx:21-28 | with a client, what the store returns for the featured events query when it succeeds; the event fallback without a client or when the store fails |
| AppPage.GetFeaturedBlogPosts | app/page.tsx:30-37 | with a client, what the store returns for the featured posts query when it succeeds; the post fallback without a client or when the store fails |
| AppPage.EventFallbacksAgree | app/page.tsx:25 | the server page's event fallback equals the client home page's featured events |
| AppPage.PostPoliciesDiffer | app/page.tsx:34 | the two home pages' post fallbacks agree exactly when some mock post is featured or there are no posts; otherwise the server page shows none and the client page shows the first three posts |
| Sorting.Sort | lib/queries.ts:5 | `order(key dir)` returns a permutation of its input, sorted by the key in the given direction |
| Sorting.SortMembers | lib/queries.ts:5 | ordering keeps the length and the members of its input |
| Queries.Matching | lib/queries.ts:5 | the filter step keeps exactly the matching documents, in store order, each as many times as the store holds it |
| Queries.Project | lib/queries.ts:5-21 | a projection holds exactly the listed fields |
| Queries.Eval | lib/queries.ts:4-114 | a query fails only when it compares a slug with a `$slug` parameter that is not supplied; a `[0]` query answers at most one record and the others a list; a window bounds the list's length; every record holds exactly the projected fields |
| Queries.EventsListSelection | lib/queries.ts:4-22 | the events list answers one record for each published event, newest start first, with the list fields |
| Queries.FeaturedEventsPrefixOfList | lib/queries.ts:88-98 | the featured events are the first three records of the events list (all of them when fewer), each narrowed to the featured projection |
| Queries.EventBySlugAtMostOne | lib/queries.ts:24-44 | the lookup by slug answers one record exactly when some event has that slug, and the record is that event's, with the slug compared by value |
| Queries.EventBySlugFindsUnpublished | lib/queries.ts:25 | the lookup by slug does not test `published`, so an unpublished event is still found |
| Queries.EventDetailExtendsList | lib/queries.ts:4-44 | the detail projection is the list projection plus capacity and registration URL, and a detail record narrowed to the list fields is that event's list record |
| Queries.BlogPostsListSelection | lib/queries.ts:47-64 | the blog list answers one record for each post, newest first; no record carries the body or the author's bio |
| Queries.BlogPostBySlugAtMostOne | lib/queries.ts:66-85 | the post lookup by slug answers one record exactly when some post has that slug; the record is that post's detail projection, so its slug, body and author's bio are that post's |
| Queries.FeaturedBlogPostsSelection | lib/queries.ts:101-114 | as many records as there are featured posts, up to three, newest first; each from a featured post; no featured post left out is newer than one chosen; no body |
| Sanity.IsSanityConfigured | lib/sanity.ts:4-9 | configured exactly when the project id and the dataset are both set to non-empty strings |
| Sanity.Config | lib/sanity.ts:12-18 | an empty project id, dataset `'production'` and API version `'2024-01-01'` stand in for unset or empty variables; the CDN is used exactly when the node environment is `production`; the read token is passed through |
| Sanity.SanityClient | lib/sanity.ts:4-23 | a client exists exactly when the project id and dataset are both set and non-empty, and it is built from the configuration |
| Sanity.LiveClientUsesEnvironment | lib/sanity.ts:12-23 | a live client always uses the environment's own project id and dataset |
| Sanity.FetchFromSanity | lib/sanity.ts:26-44 | with no client the mock data is returned; otherwise the store is asked with that query and parameters, and its answer is returned on success and the mock data on failure |
| Sanity.UnconfiguredNeverFetches | lib/sanity.ts:31-34 | without a configured client the answer does not depend on the store at all |
| ImageUrls.Builder | lib/image.ts:6-8 | an image builder exists exactly when a client exists, and it is bound to that client |
| ImageUrls.UrlForImage | lib/image.ts:10-16 | a URL request exists exactly when both the builder and the image are present, and it is for that image with no size |
| ImageUrls.UnconfiguredHasNoImages | lib/image.ts:6-16 | images have no URL request when the CMS is unconfigured or the image is absent |
| ImageUrls.GetImageUrl | lib/image.ts:19-38 | no URL when `urlForImage` gives none; otherwise the rendered URL of the request with the width and height that are set and non-zero |
| ImageUrls.GetResponsiveImageUrls | lib/image.ts:41-52 | null for an absent image; all four URLs empty without a builder; otherwise widths 640, 1024 and 1920 and an unsized original |
| ImageUrls.GetImageUrlAsWritten | lib/image.ts:19-38 | as written, with the setters' results dropped: no URL when `urlForImage` gives none, otherwise the URL of the unsized request whatever the width and height |
| ImageUrls.GetResponsiveImageUrlsAsWritten | lib/image.ts:41-52 | as written: null for an absent image; all four URLs empty without a builder; otherwise the small, medium, large and original URLs are the same unsized URL |
| StubImage.GetImageUrl | src/lib/image.ts:14-22 | the stub never yields a URL |
| StubImage.WidthIgnored | src/lib/image.ts:14-22 | the requested width has no effect on the stub's answer |
| Text.IncludesIffOccurs | components/events/EventsListClient.tsx:31-33 | `includes` holds exactly when the needle occurs at some offset of the string |
| Text.LowerStrIdempotent | components/events/EventsListClient.tsx:29 | lower-casing twice is the same as lower-casing once |

## Left out

- Rendering: the JSX markup, Material UI layout, chips, cards, themes, the
  header and the footer are presentation and carry no logic to verify.
- Lower-casing covers ASCII letters only. JavaScript's `toLowerCase`
  folds all of Unicode, and there is no Unicode case table here.
- String equality and ordering are on sequences of characters. UTF-16
  code units and Unicode collation are not modelled.
- JavaScript numbers: `capacity`, `readTime`, `width` and `height` are
  unbounded integers. Floating point and `NaN` (which is falsy) are not
  modelled.
- React state: `useState` and `useMemo` are modelled as a class field and
  as a pure function. Batched updates and stale closures are not modelled.
- `EventFilters.EventFilters.HandleFilterChange`: the `onFilterChange`
  callback is recorded as a sequence of emitted states and is not called.
- Asynchrony: `async`, `await`, `Promise.all` and the hourly `revalidate`
  are left out. The two fetches on the server home page are independent.
- `Sanity.FetchFromSanity`: the `console.error` and `console.warn`
  logging is left out, and so is the exception's content. A failure is
  an `Err`.
- The process environment and the remote CMS are parameters, not I/O.
- GROQ evaluation is limited to what the six queries use. GROQ would omit a
  null field from a projection; the model keeps the key with a `Null` value.
  The embedded `author { name, image }` and `author { name, image, bio }`
  sub-projections are flattened into three fields.
- `Sorting.Sort`: GROQ does not say how equal keys are ordered. The
  model uses a stable sort, so ties keep store order. That is one allowed
  outcome, not the only one.
- `Queries.EventsListSelection`: dates are compared as strings, as GROQ
  compares ISO-8601 strings. Mixed time-zone formats are not normalised.
- The `!image.asset` test in `src/lib/image.ts` cannot fail on a typed
  `SanityImage`, whose `asset` is required, so both branches give the same
  result in `StubImage.GetImageUrl`.
- The detail pages, the events page and the blog page only connect these
  functions to the mock JSON files. The mock data itself is a parameter.
- `Category` is declared but no core function uses it.
- The option lists of the event-type selector and the tag chips are
  presentation; any string can be chosen, so the model takes any string.
- `ImageUrls.GetImageUrl`: the model treats a setter's result as the request
  from then on. The code drops that result, which matters because the image
  URL builder's setters return a new builder; the image URL library is not
  part of this model. The code as written is `ImageUrls.GetImageUrlAsWritten`
  (see Findings).
- `ImageUrls.GetImageUrl`: the renderer `url()` is a total function, so it is
  assumed never to fail. The image URL library throws when it cannot resolve
  a source (a malformed asset reference). In that case the code throws, and
  it does not answer "absent".
- `Content.PortableTextBlock` keeps only the block type and the spans. The
  open index signature of a block (style, marks, embedded assets and any
  other key) is dropped, so a post's body is carried through without those
  keys.
- `Sanity.Store` is unconstrained: it is not tied to `Queries.Eval`, and its
  answers are treated as full `Event` and `BlogPost` values. The featured
  events query does not project `_type` or `published`, and the featured
  posts query does not project `_type` or `body`. The application's typed
  fetch hides this, and the model does not capture it.

## Findings

| source | as written | input that shows it | evidently intended | confidence | as-written member | corrected member |
|---|---|---|---|---|---|---|
| lib/image.ts:30-35 | `urlBuilder.width(width)` and `urlBuilder.height(height)` are called and their results dropped, so no size reaches `url()` | `getResponsiveImageUrls(image)` with a configured client: small, medium, large and original are the same unsized URL | keep each setter's result (`urlBuilder = urlBuilder.width(width)`), so each width is requested | not executed; rests on the image URL builder's setters returning a new builder and leaving the receiver unchanged, which is library behaviour outside this model | ImageUrls.GetResponsiveImageUrlsAsWritten | ImageUrls.GetResponsiveImageUrls |
