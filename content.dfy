/** The shared content schema: images, authors, events and blog posts.
    Every field the schema marks optional is an `Option`; a `_type`
    discriminator that the schema fixes to one literal is a member function
    returning that literal rather than a stored field. */
module Content {
  import opened Wrappers

  /** The `asset` of an image: a reference to a stored asset by its `_ref`. */
  datatype AssetReference = AssetReference(assetId: string) {
    function TypeName(): string { "reference" }
  }

  /** An image embedded in a record; the asset is always present. */
  datatype SanityImage = SanityImage(
    asset: AssetReference,
    alt: Option<string>,
    caption: Option<string>)
  {
    function TypeName(): string { "image" }
  }

  /** An embedded author: a name is required whenever an author is present. */
  datatype Author = Author(name: string, image: Option<SanityImage>, bio: Option<string>)

  datatype Slug = Slug(current: string)

  /** A single event. `id`, `title`, `slug`, `startDate` and `published` are
      always present; everything else may be absent. */
  datatype Event = Event(
    id: string,
    title: string,
    slug: Slug,
    description: Option<string>,
    excerpt: Option<string>,
    startDate: string,
    endDate: Option<string>,
    location: Option<string>,
    mainImage: Option<SanityImage>,
    tags: Option<seq<string>>,
    published: bool,
    url: Option<string>,
    eventType: Option<string>,
    organizer: Option<string>,
    capacity: Option<int>,
    registrationUrl: Option<string>)
  {
    function TypeName(): string { "event" }
  }

  /** An inline span of a rich-text block. */
  datatype Span = Span(spanType: string, text: string)

  /** A rich-text block: a kind and, optionally, its inline children. */
  datatype PortableTextBlock = PortableTextBlock(blockType: string, children: Option<seq<Span>>)

  /** A blog post. `id`, `title`, `slug`, `publishedAt` and `body` (possibly
      empty) are always present; everything else may be absent. */
  datatype BlogPost = BlogPost(
    id: string,
    title: string,
    slug: Slug,
    excerpt: Option<string>,
    publishedAt: string,
    author: Option<Author>,
    categories: Option<seq<string>>,
    mainImage: Option<SanityImage>,
    body: seq<PortableTextBlock>,
    featured: Option<bool>,
    readTime: Option<int>)
  {
    function TypeName(): string { "post" }

    /** `post.featured` is truthy: present and true. */
    predicate IsFeatured() { featured == Some(true) }
  }

  datatype Category = Category(title: string, slug: string)
}
