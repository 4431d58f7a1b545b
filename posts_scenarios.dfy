/** Clients of the posts service that follow the integration tests of the
    posts API: each one checks, from the contracts alone, what its test
    asserts about the table. */
module PostsScenarios {
  import opened Wrappers
  import opened Posts
  import opened PostsService

  /** A registered post is found with the title and content it was sent with. */
  method RegisterThenRead()
  {
    var service := new PostsService();
    var saved := service.Save(PostsSaveRequest(Some("title"), Some("content"), Some("author")));
    assert saved.Ok?;
    var found := service.FindById(saved.value);
    assert found == Ok(PostsResponse(saved.value, Row(Some("title"), Some("content"), Some("author"))));
  }

  /** An update replaces title and content and keeps the author. */
  method UpdateThenRead()
  {
    var service := new PostsService();
    var saved := service.Save(PostsSaveRequest(Some("title"), Some("content"), Some("author")));
    var updated := service.Update(saved.value, PostsUpdateRequest(Some("title2"), Some("content2")));
    assert updated == Ok(saved.value);
    var found := service.FindById(saved.value);
    assert found == Ok(PostsResponse(saved.value, Row(Some("title2"), Some("content2"), Some("author"))));
  }

  /** Deleting the only post leaves the table empty, and a second delete of
      the same id fails. */
  method DeleteOnlyPost()
  {
    var service := new PostsService();
    var saved := service.Save(PostsSaveRequest(Some("title"), Some("content"), Some("author")));
    var deleted := service.Delete(saved.value);
    assert deleted.Ok? && service.Table() == map[];
    var again := service.Delete(saved.value);
    assert again == Err(NotFound(saved.value));
  }
}
