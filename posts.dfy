/** The blog post entity (`Posts`) and the request objects that create and
    change it. */
module Posts {
  import opened Wrappers

  /** The `length = 500` of the title column. */
  const TitleLength: nat := 500

  /** The length of a string column declared without a length: the default
      VARCHAR(255), which applies to the author column. */
  const DefaultLength: nat := 255

  /** What the `posts` table accepts: a title that is not null and at most
      500 characters long, a content that is not null, and an author that is
      null or at most 255 characters long. */
  predicate FitsColumns(title: NullableString, content: NullableString, author: NullableString)
  {
    && title.Some? && |title.value| <= TitleLength
    && content.Some?
    && (author.None? || |author.value| <= DefaultLength)
  }

  /** The value of one stored row, without its key. */
  datatype Row = Row(title: NullableString, content: NullableString, author: NullableString)

  /** The mutable entity. `id` stays null until the first insert assigns the
      next auto-increment value. */
  class Posts {
    var id: Option<int>
    var title: NullableString
    var content: NullableString
    var author: NullableString

    /** The builder constructor: stores the three fields as given, no id. */
    constructor (title: NullableString, content: NullableString, author: NullableString)
      ensures this.id == None
      ensures this.title == title && this.content == content && this.author == author
    {
      this.id := None;
      this.title := title;
      this.content := content;
      this.author := author;
    }

    /** The row this entity holds. */
    function AsRow(): Row
      reads this
    {
      Row(title, content, author)
    }

    /** Replaces title and content in place; id and author are kept. */
    method Update(title: NullableString, content: NullableString)
      modifies this
      ensures this.title == title && this.content == content
      ensures this.author == old(this.author) && this.id == old(this.id)
    {
      this.title := title;
      this.content := content;
    }
  }

  /** The body of a create request. */
  datatype PostsSaveRequest = PostsSaveRequest(title: NullableString, content: NullableString, author: NullableString)
  {
    /** A new entity with the request's three fields copied unchanged and no id. */
    method ToEntity() returns (p: Posts)
      ensures fresh(p)
      ensures p.id == None
      ensures p.title == title && p.content == content && p.author == author
    {
      p := new Posts(title, content, author);
    }
  }

  /** The body of an update request. */
  datatype PostsUpdateRequest = PostsUpdateRequest(title: NullableString, content: NullableString)
}
