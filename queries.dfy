/** The query catalogue: six fixed queries against the content store, each a
    descriptor (document type, selection criterion, ordering, limit,
    first-element-only flag, projected fields) with an in-memory evaluation
    over the store's documents. */
module Queries {
  import opened Wrappers
  import opened Sequences
  import opened Text
  import opened Sorting
  import Content

  /** A document of the content store. */
  datatype Doc = EventDoc(event: Content.Event) | PostDoc(post: Content.BlogPost) {
    /** The document's `_type`. */
    function TypeName(): string {
      match this
      case EventDoc(e) => e.TypeName()
      case PostDoc(p) => p.TypeName()
    }
  }

  /** The attributes a query can select on, order by or project. The author's
      attributes are flattened: `author { name, image }` projects `AuthorName`
      and `AuthorImage`. */
  datatype Field =
    | Id | TypeField | Title | SlugField | Excerpt | Description | StartDate | EndDate
    | Location | MainImage | Tags | EventTypeField | Organizer | Capacity
    | RegistrationUrl | Published | Url
    | PublishedAt | AuthorName | AuthorImage | AuthorBio | Categories | Body | Featured | ReadTime

  /** An attribute value; `Null` stands for an absent attribute. */
  datatype Value =
    | Null
    | Str(s: string)
    | Bool(b: bool)
    | Num(n: int)
    | StrList(items: seq<string>)
    | Image(image: Content.SanityImage)
    | Blocks(blocks: seq<Content.PortableTextBlock>)

  /** A projected record: the projected fields and their values. */
  type Record = map<Field, Value>

  datatype Ordering = Unordered | OrderBy(key: Field, dir: Direction)

  /** The filter inside `*[_type == ... && ...]`, beside the type test. */
  datatype Criterion =
    | AnyDoc                             // no further criterion
    | FieldIs(field: Field, value: Value) // `field == value`
    | SlugIsParam                        // `slug.current == $slug`

  datatype Query = Query(
    docType: string,
    criterion: Criterion,
    ordering: Ordering,
    limit: Option<nat>,       // `[0...n]`
    firstOnly: bool,          // `[0]`
    projection: set<Field>)

  /** The parameters a query may reference. */
  datatype Params = Params(slug: Option<string>)

  const NoParams: Params := Params(None)

  /** A list query returns records; a `[0]` query one record or `null`. */
  datatype Response = Many(records: seq<Record>) | One(record: Option<Record>)

  function OptStr(o: Option<string>): Value {
    if o.Some? then Str(o.value) else Null
  }

  function OptImage(o: Option<Content.SanityImage>): Value {
    if o.Some? then Image(o.value) else Null
  }

  function OptStrs(o: Option<seq<string>>): Value {
    if o.Some? then StrList(o.value) else Null
  }

  function OptNum(o: Option<int>): Value {
    if o.Some? then Num(o.value) else Null
  }

  /** The value of attribute `f` of document `d`; attributes a document does
      not have are `Null`. */
  function FieldValue(d: Doc, f: Field): Value {
    match d
    case EventDoc(e) =>
      (match f
       case Id => Str(e.id)
       case TypeField => Str(e.TypeName())
       case Title => Str(e.title)
       case SlugField => Str(e.slug.current)
       case Excerpt => OptStr(e.excerpt)
       case Description => OptStr(e.description)
       case StartDate => Str(e.startDate)
       case EndDate => OptStr(e.endDate)
       case Location => OptStr(e.location)
       case MainImage => OptImage(e.mainImage)
       case Tags => OptStrs(e.tags)
       case EventTypeField => OptStr(e.eventType)
       case Organizer => OptStr(e.organizer)
       case Capacity => OptNum(e.capacity)
       case RegistrationUrl => OptStr(e.registrationUrl)
       case Published => Bool(e.published)
       case Url => OptStr(e.url)
       case _ => Null)
    case PostDoc(p) =>
      (match f
       case Id => Str(p.id)
       case TypeField => Str(p.TypeName())
       case Title => Str(p.title)
       case SlugField => Str(p.slug.current)
       case Excerpt => OptStr(p.excerpt)
       case PublishedAt => Str(p.publishedAt)
       case AuthorName => if p.author.Some? then Str(p.author.value.name) else Null
       case AuthorImage => if p.author.Some? then OptImage(p.author.value.image) else Null
       case AuthorBio => if p.author.Some? then OptStr(p.author.value.bio) else Null
       case Categories => OptStrs(p.categories)
       case MainImage => OptImage(p.mainImage)
       case Body => Blocks(p.body)
       case Featured => if p.featured.Some? then Bool(p.featured.value) else Null
       case ReadTime => OptNum(p.readTime)
       case _ => Null)
  }

  // ---------------------------------------------------------------------
  // The catalogue

  const EventListFields: set<Field> :=
    {Id, TypeField, Title, SlugField, Excerpt, Description, StartDate, EndDate,
     Location, MainImage, Tags, EventTypeField, Organizer, Published, Url}

  const EventDetailFields: set<Field> :=
    {Id, TypeField, Title, SlugField, Description, Excerpt, StartDate, EndDate,
     Location, MainImage, Tags, EventTypeField, Organizer, Capacity, RegistrationUrl,
     Published, Url}

  const PostListFields: set<Field> :=
    {Id, TypeField, Title, SlugField, Excerpt, PublishedAt, AuthorName, AuthorImage,
     Categories, MainImage, Featured, ReadTime}

  const PostDetailFields: set<Field> :=
    {Id, TypeField, Title, SlugField, Excerpt, PublishedAt, AuthorName, AuthorImage,
     AuthorBio, Categories, MainImage, Body, Featured, ReadTime}

  const FeaturedEventFields: set<Field> :=
    {Id, Title, SlugField, Excerpt, StartDate, Location, MainImage, Tags}

  const FeaturedPostFields: set<Field> :=
    {Id, Title, SlugField, Excerpt, PublishedAt, AuthorName, MainImage, Categories}

  /** `*[_type == "event" && published == true] | order(startDate desc) {...}` */
  const EventsListQuery: Query :=
    Query("event", FieldIs(Published, Bool(true)), OrderBy(StartDate, Desc), None, false, EventListFields)

  /** `*[_type == "event" && slug.current == $slug][0] {...}` */
  const EventBySlugQuery: Query :=
    Query("event", SlugIsParam, Unordered, None, true, EventDetailFields)

  /** `*[_type == "post"] | order(publishedAt desc) {...}` */
  const BlogPostsListQuery: Query :=
    Query("post", AnyDoc, OrderBy(PublishedAt, Desc), None, false, PostListFields)

  /** `*[_type == "post" && slug.current == $slug][0] {...}` */
  const BlogPostBySlugQuery: Query :=
    Query("post", SlugIsParam, Unordered, None, true, PostDetailFields)

  /** `*[_type == "event" && published == true] | order(startDate desc)[0...3] {...}` */
  const FeaturedEventsQuery: Query :=
    Query("event", FieldIs(Published, Bool(true)), OrderBy(StartDate, Desc), Some(3), false, FeaturedEventFields)

  /** `*[_type == "post" && featured == true] | order(publishedAt desc)[0...3] {...}` */
  const FeaturedBlogPostsQuery: Query :=
    Query("post", FieldIs(Featured, Bool(true)), OrderBy(PublishedAt, Desc), Some(3), false, FeaturedPostFields)

  // ---------------------------------------------------------------------
  // Evaluation

  predicate Matches(docType: string, c: Criterion, params: Params, d: Doc) {
    d.TypeName() == docType &&
    match c
    case AnyDoc => true
    case FieldIs(f, v) => FieldValue(d, f) == v
    case SlugIsParam => params.slug.Some? && FieldValue(d, SlugField) == Str(params.slug.value)
  }

  /** The documents matching the selection, in store order. */
  function Matching(docType: string, c: Criterion, params: Params, store: seq<Doc>): (r: seq<Doc>)
    ensures IsSubsequence(r, store)
    ensures forall d :: d in r <==> d in store && Matches(docType, c, params, d)
    ensures forall d :: multiset(r)[d] == if Matches(docType, c, params, d) then multiset(store)[d] else 0
    decreases |store|
  {
    if store == [] then []
    else
      var rest := Matching(docType, c, params, store[1..]);
      assert store == [store[0]] + store[1..];
      if Matches(docType, c, params, store[0]) then [store[0]] + rest else rest
  }

  /** The string an ordering key reads (absent keys read as the empty string). */
  function SortKey(d: Doc, key: Field): string {
    match FieldValue(d, key)
    case Str(s) => s
    case _ => ""
  }

  /** The ordering key `key` as a function of a document. */
  function KeyOf(key: Field): Doc -> string {
    d => SortKey(d, key)
  }

  function Ordered(s: seq<Doc>, o: Ordering): seq<Doc> {
    match o
    case Unordered => s
    case OrderBy(key, dir) => Sort(s, KeyOf(key), dir)
  }

  function Window(s: seq<Doc>, limit: Option<nat>): seq<Doc> {
    if limit.Some? then FirstN(s, limit.value) else s
  }

  /** The documents the query returns, before projection. */
  function Selected(q: Query, params: Params, store: seq<Doc>): seq<Doc> {
    Window(Ordered(Matching(q.docType, q.criterion, params, store), q.ordering), q.limit)
  }

  function Project(d: Doc, fields: set<Field>): (r: Record)
    ensures r.Keys == fields
  {
    map f | f in fields :: FieldValue(d, f)
  }

  function ProjectAll(docs: seq<Doc>, fields: set<Field>): (r: seq<Record>)
    ensures |r| == |docs|
    ensures forall i :: 0 <= i < |docs| ==> r[i] == Project(docs[i], fields)
  {
    seq(|docs|, i requires 0 <= i < |docs| => Project(docs[i], fields))
  }

  /** Evaluate a query. Referencing `$slug` without passing it is an error. */
  function Eval(q: Query, params: Params, store: seq<Doc>): (r: Result<Response>)
    ensures r.Err? <==> q.criterion == SlugIsParam && params.slug.None?
    ensures r.Ok? ==> (r.value.One? <==> q.firstOnly)
    ensures r.Ok? && r.value.Many? && q.limit.Some? ==> |r.value.records| <= q.limit.value
    ensures r.Ok? && r.value.Many? ==> forall i :: 0 <= i < |r.value.records| ==> r.value.records[i].Keys == q.projection
    ensures r.Ok? && r.value.One? && r.value.record.Some? ==> r.value.record.value.Keys == q.projection
  {
    if q.criterion == SlugIsParam && params.slug.None? then
      Err("param $slug referenced, but not provided")
    else
      var docs := Selected(q, params, store);
      if q.firstOnly then
        Ok(One(if docs == [] then None else Some(Project(docs[0], q.projection))))
      else
        Ok(Many(ProjectAll(docs, q.projection)))
  }

  /** `record` keeps only the attributes in `fields`. */
  function Restrict(record: Record, fields: set<Field>): (r: Record)
    ensures r.Keys == record.Keys * fields
  {
    map f | f in record && f in fields :: record[f]
  }

  /** Projecting on a wider set and then restricting is projecting on the narrower set. */
  lemma RestrictProject(d: Doc, wide: set<Field>, narrow: set<Field>)
    requires narrow <= wide
    ensures Restrict(Project(d, wide), narrow) == Project(d, narrow)
  {
    var lhs := Restrict(Project(d, wide), narrow);
    assert lhs.Keys == narrow;
    forall f | f in narrow ensures lhs[f] == Project(d, narrow)[f] {
    }
  }

  // ---------------------------------------------------------------------
  // Properties of the catalogue

  /** A list query is evaluated by projecting its selected documents. */
  lemma ListEval(q: Query, params: Params, store: seq<Doc>)
    requires !q.firstOnly && q.criterion != SlugIsParam
    ensures Eval(q, params, store) == Ok(Many(ProjectAll(Selected(q, params, store), q.projection)))
  {
  }

  /** An ordered query selects the matching documents, and they come sorted. */
  lemma OrderedSelection(q: Query, params: Params, store: seq<Doc>, key: Field)
    requires q.ordering == OrderBy(key, Desc) && q.limit.None?
    ensures var docs := Selected(q, params, store);
      && (forall d :: d in docs <==> d in store && Matches(q.docType, q.criterion, params, d))
      && (forall i, j :: 0 <= i < j < |docs| ==> StrLe(SortKey(docs[j], key), SortKey(docs[i], key)))
  {
    var m := Matching(q.docType, q.criterion, params, store);
    SortMembers(m, KeyOf(key), Desc);
    var docs := Sort(m, KeyOf(key), Desc);
    forall i, j | 0 <= i < j < |docs|
      ensures StrLe(SortKey(docs[j], key), SortKey(docs[i], key))
    {
      assert Precedes(docs[i], docs[j], KeyOf(key), Desc);
    }
  }

  lemma MatchesPublishedEvent(params: Params, d: Doc)
    ensures Matches("event", FieldIs(Published, Bool(true)), params, d) <==> d.EventDoc? && d.event.published
  {
  }

  lemma MatchesFeaturedPost(params: Params, d: Doc)
    ensures Matches("post", FieldIs(Featured, Bool(true)), params, d) <==> d.PostDoc? && d.post.featured == Some(true)
  {
  }

  lemma MatchesAnyPost(params: Params, d: Doc)
    ensures Matches("post", AnyDoc, params, d) <==> d.PostDoc?
  {
  }

  lemma PublishedRecords(docs: seq<Doc>)
    requires forall d :: d in docs ==> d.EventDoc? && d.event.published
    ensures var records := ProjectAll(docs, EventListFields);
      forall i :: 0 <= i < |records| ==> records[i][Published] == Bool(true) && records[i][TypeField] == Str("event")
  {
    forall i | 0 <= i < |docs| ensures Project(docs[i], EventListFields)[Published] == Bool(true) {
      assert docs[i] in docs;
    }
  }

  /** The events list selects exactly the published events, latest start first,
      and every record it returns says `published: true` and `_type: "event"`. */
  lemma EventsListSelection(store: seq<Doc>, params: Params)
    ensures Eval(EventsListQuery, params, store) ==
      Ok(Many(ProjectAll(Selected(EventsListQuery, params, store), EventListFields)))
    ensures var docs := Selected(EventsListQuery, params, store);
      && (forall d :: d in docs <==> d in store && d.EventDoc? && d.event.published)
      && (forall i, j :: 0 <= i < j < |docs| ==> StrLe(SortKey(docs[j], StartDate), SortKey(docs[i], StartDate)))
    ensures var records := ProjectAll(Selected(EventsListQuery, params, store), EventListFields);
      forall i :: 0 <= i < |records| ==> records[i][Published] == Bool(true) && records[i][TypeField] == Str("event")
  {
    ListEval(EventsListQuery, params, store);
    OrderedSelection(EventsListQuery, params, store, StartDate);
    forall d ensures Matches("event", FieldIs(Published, Bool(true)), params, d) <==> d.EventDoc? && d.event.published {
      MatchesPublishedEvent(params, d);
    }
    PublishedRecords(Selected(EventsListQuery, params, store));
  }

  lemma FeaturedWindow(store: seq<Doc>, params: Params)
    ensures Selected(FeaturedEventsQuery, params, store) == FirstN(Selected(EventsListQuery, params, store), 3)
  {
  }

  /** The featured events are the first (at most three) records of the events
      list, each narrowed to the featured projection. */
  lemma FeaturedEventsPrefixOfList(store: seq<Doc>, params: Params)
    ensures var list := Eval(EventsListQuery, params, store);
      var featured := Eval(FeaturedEventsQuery, params, store);
      && list.Ok? && list.value.Many? && featured.Ok? && featured.value.Many?
      && |featured.value.records| == Min(3, |list.value.records|)
      && forall i :: 0 <= i < |featured.value.records| ==>
           featured.value.records[i] == Restrict(list.value.records[i], FeaturedEventFields)
  {
    var all := Selected(EventsListQuery, params, store);
    var top := Selected(FeaturedEventsQuery, params, store);
    ListEval(EventsListQuery, params, store);
    ListEval(FeaturedEventsQuery, params, store);
    FeaturedWindow(store, params);
    assert FeaturedEventFields <= EventListFields;
    forall i | 0 <= i < |top|
      ensures Project(top[i], FeaturedEventFields) == Restrict(Project(all[i], EventListFields), FeaturedEventFields)
    {
      RestrictProject(all[i], EventListFields, FeaturedEventFields);
    }
  }

  /** Whether the store holds an event whose slug is `slug`, published or not. */
  ghost predicate HasEventWithSlug(store: seq<Doc>, slug: string) {
    exists i :: 0 <= i < |store| && store[i].EventDoc? && store[i].event.slug.current == slug
  }

  ghost predicate HasPostWithSlug(store: seq<Doc>, slug: string) {
    exists i :: 0 <= i < |store| && store[i].PostDoc? && store[i].post.slug.current == slug
  }

  /** A `[0]` query over a slug returns the first document with that slug, if any. */
  lemma SlugLookup(q: Query, store: seq<Doc>, slug: string)
    requires q.criterion == SlugIsParam && q.firstOnly && q.ordering == Unordered && q.limit.None?
    ensures var r := Eval(q, Params(Some(slug)), store);
      && r.Ok? && r.value.One?
      && (r.value.record.Some? <==>
            exists i :: 0 <= i < |store| && store[i].TypeName() == q.docType && FieldValue(store[i], SlugField) == Str(slug))
      && (r.value.record.Some? ==>
            exists i :: 0 <= i < |store| && store[i].TypeName() == q.docType && FieldValue(store[i], SlugField) == Str(slug)
              && r.value.record.value == Project(store[i], q.projection))
  {
    var params := Params(Some(slug));
    var m := Matching(q.docType, q.criterion, params, store);
    assert Selected(q, params, store) == m;
    if exists i :: 0 <= i < |store| && store[i].TypeName() == q.docType && FieldValue(store[i], SlugField) == Str(slug) {
      var i :| 0 <= i < |store| && store[i].TypeName() == q.docType && FieldValue(store[i], SlugField) == Str(slug);
      assert store[i] in m;
    }
    if m != [] {
      assert m[0] in m;
      var i :| 0 <= i < |store| && store[i] == m[0];
    }
  }

  lemma EventSlugValue(d: Doc, slug: string)
    ensures d.TypeName() == "event" && FieldValue(d, SlugField) == Str(slug) <==>
      d.EventDoc? && d.event.slug.current == slug
  {
  }

  lemma PostSlugValue(d: Doc, slug: string)
    ensures d.TypeName() == "post" && FieldValue(d, SlugField) == Str(slug) <==>
      d.PostDoc? && d.post.slug.current == slug
  {
  }

  lemma {:induction false} DetailRecord(d: Doc, slug: string)
    requires d.EventDoc? && d.event.slug.current == slug
    ensures Project(d, EventDetailFields)[SlugField] == Str(slug)
    ensures Project(d, EventDetailFields)[TypeField] == Str("event")
  {
  }

  /** Looking an event up by slug yields at most one record; it is there exactly
      when some event, published or not, has that slug, and it is the detail
      projection of such an event. */
  lemma EventBySlugAtMostOne(store: seq<Doc>, slug: string)
    ensures var r := Eval(EventBySlugQuery, Params(Some(slug)), store);
      && r.Ok? && r.value.One?
      && (r.value.record.Some? <==> HasEventWithSlug(store, slug))
      && (r.value.record.Some? ==>
            && r.value.record.value[SlugField] == Str(slug)
            && r.value.record.value[TypeField] == Str("event")
            && exists i :: 0 <= i < |store| && store[i].EventDoc? && store[i].event.slug.current == slug
                 && r.value.record.value == Project(store[i], EventDetailFields))
  {
    SlugLookup(EventBySlugQuery, store, slug);
    forall i | 0 <= i < |store|
      ensures store[i].TypeName() == "event" && FieldValue(store[i], SlugField) == Str(slug) <==>
        store[i].EventDoc? && store[i].event.slug.current == slug
    {
      EventSlugValue(store[i], slug);
    }
    var r := Eval(EventBySlugQuery, Params(Some(slug)), store);
    if r.value.record.Some? {
      var i :| 0 <= i < |store| && store[i].EventDoc? && store[i].event.slug.current == slug
        && r.value.record.value == Project(store[i], EventDetailFields);
      DetailRecord(store[i], slug);
    }
  }

  /** The slug lookup does not look at `published`: an unpublished event is found. */
  lemma EventBySlugFindsUnpublished(e: Content.Event)
    requires !e.published
    ensures Eval(EventBySlugQuery, Params(Some(e.slug.current)), [EventDoc(e)]) ==
      Ok(One(Some(Project(EventDoc(e), EventDetailFields))))
  {
    var params := Params(Some(e.slug.current));
    assert Matches("event", SlugIsParam, params, EventDoc(e));
    assert Matching("event", SlugIsParam, params, [EventDoc(e)]) == [EventDoc(e)];
  }

  lemma DetailFieldsAddTwo()
    ensures EventDetailFields == EventListFields + {Capacity, RegistrationUrl}
  {
  }

  lemma DetailOnlyFields()
    ensures Capacity !in EventListFields && RegistrationUrl !in EventListFields
  {
  }

  /** The detail projection is the list projection plus capacity and the
      registration URL, so a detail record narrowed to the list fields is the
      list record of the same event. */
  lemma EventDetailExtendsList(d: Doc)
    ensures EventDetailFields == EventListFields + {Capacity, RegistrationUrl}
    ensures Capacity !in EventListFields && RegistrationUrl !in EventListFields
    ensures Restrict(Project(d, EventDetailFields), EventListFields) == Project(d, EventListFields)
  {
    DetailFieldsAddTwo();
    DetailOnlyFields();
    RestrictProject(d, EventDetailFields, EventListFields);
  }

  /** The post list returns every post, latest first, without the body or the
      author's bio. */
  lemma BlogPostsListSelection(store: seq<Doc>, params: Params)
    ensures Eval(BlogPostsListQuery, params, store) ==
      Ok(Many(ProjectAll(Selected(BlogPostsListQuery, params, store), PostListFields)))
    ensures var docs := Selected(BlogPostsListQuery, params, store);
      && (forall d :: d in docs <==> d in store && d.PostDoc?)
      && (forall i, j :: 0 <= i < j < |docs| ==> StrLe(SortKey(docs[j], PublishedAt), SortKey(docs[i], PublishedAt)))
    ensures var records := ProjectAll(Selected(BlogPostsListQuery, params, store), PostListFields);
      forall i :: 0 <= i < |records| ==> Body !in records[i] && AuthorBio !in records[i]
  {
    ListEval(BlogPostsListQuery, params, store);
    OrderedSelection(BlogPostsListQuery, params, store, PublishedAt);
    forall d ensures Matches("post", AnyDoc, params, d) <==> d.PostDoc? {
      MatchesAnyPost(params, d);
    }
    ListProjectionsOmitBody();
    FieldNotProjected(Selected(BlogPostsListQuery, params, store), PostListFields, Body);
    FieldNotProjected(Selected(BlogPostsListQuery, params, store), PostListFields, AuthorBio);
  }

  /** No record of a projection carries a field left out of it. */
  lemma FieldNotProjected(docs: seq<Doc>, fields: set<Field>, f: Field)
    requires f !in fields
    ensures forall i :: 0 <= i < |docs| ==> f !in ProjectAll(docs, fields)[i]
  {
  }

  lemma ListProjectionsOmitBody()
    ensures Body !in PostListFields && AuthorBio !in PostListFields
    ensures Body !in FeaturedPostFields
  {
  }

  lemma {:induction false} PostDetailRecord(d: Doc)
    requires d.PostDoc?
    ensures Project(d, PostDetailFields)[Body] == Blocks(d.post.body)
    ensures Project(d, PostDetailFields)[SlugField] == Str(d.post.slug.current)
    ensures Project(d, PostDetailFields)[TypeField] == Str("post")
    ensures AuthorBio in Project(d, PostDetailFields)
  {
  }

  /** Looking a post up by slug yields at most one record, present exactly when
      a post has that slug; it is the detail projection of such a post, so it
      carries that post's body and its author's bio. */
  lemma BlogPostBySlugAtMostOne(store: seq<Doc>, slug: string)
    ensures var r := Eval(BlogPostBySlugQuery, Params(Some(slug)), store);
      && r.Ok? && r.value.One?
      && (r.value.record.Some? <==> HasPostWithSlug(store, slug))
      && (r.value.record.Some? ==>
            && AuthorBio in r.value.record.value
            && r.value.record.value[SlugField] == Str(slug)
            && r.value.record.value[TypeField] == Str("post")
            && exists i :: 0 <= i < |store| && store[i].PostDoc? && store[i].post.slug.current == slug
                 && r.value.record.value == Project(store[i], PostDetailFields)
                 && r.value.record.value[Body] == Blocks(store[i].post.body))
  {
    SlugLookup(BlogPostBySlugQuery, store, slug);
    forall i | 0 <= i < |store|
      ensures store[i].TypeName() == "post" && FieldValue(store[i], SlugField) == Str(slug) <==>
        store[i].PostDoc? && store[i].post.slug.current == slug
    {
      PostSlugValue(store[i], slug);
    }
    var r := Eval(BlogPostBySlugQuery, Params(Some(slug)), store);
    if r.value.record.Some? {
      var i :| 0 <= i < |store| && store[i].PostDoc? && store[i].post.slug.current == slug
        && r.value.record.value == Project(store[i], PostDetailFields);
      PostDetailRecord(store[i]);
    }
  }

  /** A windowed query ordered by `key` descending returns the first `limit`
      matching documents of the sorted order, latest key first. */
  lemma OrderedWindow(q: Query, params: Params, store: seq<Doc>, key: Field)
    requires q.ordering == OrderBy(key, Desc) && q.limit.Some?
    ensures var docs := Selected(q, params, store);
      && |docs| == Min(q.limit.value, |Matching(q.docType, q.criterion, params, store)|)
      && (forall i, j :: 0 <= i < j < |docs| ==> StrLe(SortKey(docs[j], key), SortKey(docs[i], key)))
  {
    var m := Matching(q.docType, q.criterion, params, store);
    SortMembers(m, KeyOf(key), Desc);
    var sorted := Sort(m, KeyOf(key), Desc);
    var docs := FirstN(sorted, q.limit.value);
    forall i, j | 0 <= i < j < |docs|
      ensures StrLe(SortKey(docs[j], key), SortKey(docs[i], key))
    {
      assert docs[i] == sorted[i] && docs[j] == sorted[j];
      assert Precedes(sorted[i], sorted[j], KeyOf(key), Desc);
    }
  }

  /** The featured posts are the latest posts marked featured, newest first:
      as many as there are featured posts, up to three, and a featured post
      left out is no later than any post returned. No record carries the
      body. */
  lemma FeaturedBlogPostsSelection(store: seq<Doc>, params: Params)
    ensures var docs := Selected(FeaturedBlogPostsQuery, params, store);
      && Eval(FeaturedBlogPostsQuery, params, store) == Ok(Many(ProjectAll(docs, FeaturedPostFields)))
      && |docs| == Min(3, |Matching("post", FieldIs(Featured, Bool(true)), params, store)|)
      && (forall i, j :: 0 <= i < j < |docs| ==> StrLe(SortKey(docs[j], PublishedAt), SortKey(docs[i], PublishedAt)))
      && (forall d :: d in docs ==> d in store && d.PostDoc? && d.post.featured == Some(true))
      && (forall d, s :: d in store && d.PostDoc? && d.post.featured == Some(true) && d !in docs && s in docs ==>
            StrLe(SortKey(d, PublishedAt), SortKey(s, PublishedAt)))
    ensures var records := ProjectAll(Selected(FeaturedBlogPostsQuery, params, store), FeaturedPostFields);
      forall i :: 0 <= i < |records| ==> Body !in records[i]
  {
    var q := FeaturedBlogPostsQuery;
    ListEval(q, params, store);
    OrderedWindow(q, params, store, PublishedAt);
    var m := Matching(q.docType, q.criterion, params, store);
    SortMembers(m, KeyOf(PublishedAt), Desc);
    var sorted := Sort(m, KeyOf(PublishedAt), Desc);
    var docs := FirstN(sorted, 3);
    assert docs == Selected(q, params, store);
    forall d | d in docs ensures d in store && d.PostDoc? && d.post.featured == Some(true) {
      assert d in sorted;
      MatchesFeaturedPost(params, d);
    }
    forall d, s | d in store && d.PostDoc? && d.post.featured == Some(true) && d !in docs && s in docs
      ensures StrLe(SortKey(d, PublishedAt), SortKey(s, PublishedAt))
    {
      MatchesFeaturedPost(params, d);
      assert d in m;
      var k :| 0 <= k < |sorted| && sorted[k] == d;
      var i :| 0 <= i < |docs| && docs[i] == s;
      assert k >= |docs|;
      assert Precedes(sorted[i], sorted[k], KeyOf(PublishedAt), Desc);
    }
    ListProjectionsOmitBody();
    FieldNotProjected(docs, FeaturedPostFields, Body);
  }
}
