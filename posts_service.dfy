/** The posts service: create, update, look up, list and delete posts over the
    posts table. The table is the map `rows` from id to entity, with the
    auto-increment counter `nextId` beside it. */
module PostsService {
  import opened Wrappers
  import opened Posts

  /** `NotFound` is the IllegalArgumentException thrown for an absent id;
      `ConstraintViolation` is the failed insert or flush of a row that does
      not fit the columns, after which the transaction rolls back. */
  datatype PostsError = NotFound(id: int) | ConstraintViolation

  /** What a single-post lookup returns: built from exactly that post. */
  datatype PostsResponse = PostsResponse(id: int, post: Row)

  /** One entry of the listing: built from exactly that post. */
  datatype PostsListResponse = PostsListResponse(id: int, post: Row)

  /** Every row of `t` satisfies the column constraints. */
  predicate AllFit(t: map<int, Row>)
  {
    forall id | id in t :: FitsColumns(t[id].title, t[id].content, t[id].author)
  }

  /** The listing: one entry per row of the query result, in the same order. */
  function ListResponses(t: map<int, Row>, queried: seq<int>): (list: seq<PostsListResponse>)
    requires forall i | 0 <= i < |queried| :: queried[i] in t
    ensures |list| == |queried|
    ensures forall i | 0 <= i < |list| :: list[i].id == queried[i] && list[i].post == t[queried[i]]
  {
    if queried == [] then []
    else [PostsListResponse(queried[0], t[queried[0]])] + ListResponses(t, queried[1..])
  }

  /** When the query returns every stored id, every stored post is listed,
      and nothing else is. */
  lemma ListingCoversTable(t: map<int, Row>, queried: seq<int>)
    requires forall i | 0 <= i < |queried| :: queried[i] in t
    requires forall id | id in t :: id in queried
    ensures (set e | e in ListResponses(t, queried) :: e.id) == t.Keys
  {
    var list := ListResponses(t, queried);
    forall id | id in t
      ensures id in (set e | e in list :: e.id)
    {
      var i :| 0 <= i < |queried| && queried[i] == id;
      assert list[i] in list;
    }
  }

  class PostsService {
    var rows: map<int, Posts>
    var nextId: int

    /** Each stored entity carries its own key as id, every key lies below
        the auto-increment counter, and every row fits the columns. Because an
        entity has one id, distinct keys hold distinct entities. */
    ghost predicate Valid()
      reads this, rows.Values
    {
      && 1 <= nextId
      && (forall id | id in rows :: 1 <= id < nextId && rows[id].id == Some(id))
      && AllFit(Table())
    }

    /** The table's contents. */
    function Table(): (t: map<int, Row>)
      reads this, rows.Values
      ensures t.Keys == rows.Keys
    {
      map id | id in rows :: rows[id].AsRow()
    }

    /** Every stored post has a title that is not null and at most 500
        characters long, a content that is not null, and an author that is
        null or at most 255 characters long. */
    lemma StoredPostFits(id: int)
      requires Valid() && id in Table()
      ensures Table()[id].title.Some? && |Table()[id].title.value| <= TitleLength
      ensures Table()[id].content.Some?
      ensures Table()[id].author.None? || |Table()[id].author.value| <= DefaultLength
    {
    }

    constructor ()
      ensures Valid() && Table() == map[] && nextId == 1
    {
      rows := map[];
      nextId := 1;
    }

    /** Inserts the request as a new post and returns the id the insert
        assigned; that id was not in use before. A row that does not fit the
        columns is refused and nothing changes. */
    method Save(req: PostsSaveRequest) returns (r: Result<int, PostsError>)
      requires Valid()
      modifies this
      ensures Valid() && fresh(rows.Values - old(rows.Values))
      ensures FitsColumns(req.title, req.content, req.author) ==>
        && r == Ok(old(nextId))
        && r.value !in old(Table())
        && Table() == old(Table())[r.value := Row(req.title, req.content, req.author)]
        && nextId == old(nextId) + 1
      ensures !FitsColumns(req.title, req.content, req.author) ==>
        r == Err(ConstraintViolation) && Table() == old(Table()) && nextId == old(nextId)
    {
      var post := req.ToEntity();
      if !FitsColumns(post.title, post.content, post.author) {
        return Err(ConstraintViolation);
      }
      post.id := Some(nextId);
      rows := rows[nextId := post];
      r := Ok(nextId);
      nextId := nextId + 1;
    }

    /** Replaces the title and content of the post with this id and returns
        the id. Its author and every other post are unchanged. An absent id
        fails with NotFound; new values that do not fit the columns fail at
        commit and the rollback leaves the table as it was. */
    method Update(id: int, req: PostsUpdateRequest) returns (r: Result<int, PostsError>)
      requires Valid()
      modifies rows.Values
      ensures Valid()
      ensures id !in old(Table()) ==> r == Err(NotFound(id)) && Table() == old(Table())
      ensures id in old(Table()) && !FitsColumns(req.title, req.content, old(Table())[id].author) ==>
        r == Err(ConstraintViolation) && Table() == old(Table())
      ensures id in old(Table()) && FitsColumns(req.title, req.content, old(Table())[id].author) ==>
        && r == Ok(id)
        && Table() == old(Table())[id := Row(req.title, req.content, old(Table())[id].author)]
    {
      if id !in rows {
        return Err(NotFound(id));
      }
      var post := rows[id];
      // The flush at commit rejects a row that does not fit; the rollback
      // undoes the change, so the model checks before changing the entity.
      if !FitsColumns(req.title, req.content, post.author) {
        return Err(ConstraintViolation);
      }
      assert forall k | k in rows && k != id :: rows[k] != post;
      post.Update(req.title, req.content);
      r := Ok(id);
    }

    /** Looks a post up without changing anything. */
    method FindById(id: int) returns (r: Result<PostsResponse, PostsError>)
      requires Valid()
      ensures id in Table() ==> r == Ok(PostsResponse(id, Table()[id]))
      ensures id !in Table() ==> r == Err(NotFound(id))
    {
      if id !in rows {
        return Err(NotFound(id));
      }
      r := Ok(PostsResponse(id, rows[id].AsRow()));
    }

    /** Lists the rows the query returned, in its order. The query and its
        order are the repository's: `queried` holds the ids of the stored
        rows it returned. */
    method FindAllDesc(queried: seq<int>) returns (list: seq<PostsListResponse>)
      requires Valid()
      requires forall i | 0 <= i < |queried| :: queried[i] in rows
      ensures list == ListResponses(Table(), queried)
      ensures forall e | e in list :: e.id in Table() && e.post == Table()[e.id]
    {
      list := ListResponses(Table(), queried);
    }

    /** Removes exactly the post with this id; an absent id fails with
        NotFound and nothing changes. */
    method Delete(id: int) returns (r: Result<(), PostsError>)
      requires Valid()
      modifies this
      ensures Valid() && nextId == old(nextId) && rows.Values <= old(rows.Values)
      ensures id in old(Table()) ==> r == Ok(()) && Table() == old(Table()) - {id}
      ensures id !in old(Table()) ==> r == Err(NotFound(id)) && Table() == old(Table())
      ensures old(Table().Keys) == {id} ==> Table() == map[]
    {
      if id !in rows {
        return Err(NotFound(id));
      }
      rows := rows - {id};
      r := Ok(());
    }
  }
}
