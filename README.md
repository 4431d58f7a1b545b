# A Dafny model of the springbook blog backend

The springbook backend is a small blog service. Its users sign in through
Google, Naver or Kakao, and it keeps blog posts in a relational table. This
project models the four pieces of application logic that sit between the
web framework and the database. It proves what each of them promises.

- **The posts service** (`posts.dfy`, `posts_service.dfy`). `Posts` is a
  mutable entity class. Its id stays null until the first insert assigns
  one. The service class `PostsService` holds the posts table as a map from
  id to entity, plus the auto-increment counter. `Save`, `Update`,
  `FindById`, `FindAllDesc` and `Delete` are methods over that map. Their
  contracts are stated against `Table()`, the table's contents as values.
  The invariant `Valid()` says three things:
  - every entity carries its own key as its id;
  - every key lies below the counter, so a new id is always fresh;
  - every row meets the column constraints: the title is not null and has
    at most 500 characters, the content is not null, and the author, a
    string column declared without a length, is null or has at most the
    default 255 characters.

  `PostsSaveRequest.ToEntity` builds a new entity from a create request.
  `posts_scenarios.dfy` replays the three posts API integration tests. It
  is a client of the contracts: register then read, update then read, and
  delete the only post.
- **Provider attribute normalisation** (`oauth.dfy`). The provider's claims
  are a JSON-like value: strings, nested objects, null and anything else.
  `Of` dispatches on the registration id to the Google, Naver or Kakao
  reader, as the source does. Its contract ties the result to a separate
  per-provider table of field paths (`NamePath`, `EmailPath`,
  `PicturePath`), read by `StringAt`.
- **User upsert by email** (`users.dfy`, `login_service.dfy`). `User` is a
  mutable entity class. `CustomOAuth2UserService` holds the user table as a
  map from email to entity. `SaveOrUpdate` is proved against the value-level
  function `Upsert`, and lemmas state what `Upsert` does. `LoadUser` chains
  normalisation, the upsert and the packaging of the returned principal.
- **Active-profile selection** (`profile.dfy`). `Profile` reports a real
  deployment profile if one is active. Otherwise it reports the first
  active profile, or `"default"` when none is active.

A Java `String` that may be null is modelled as `Option<string>`
(`NullableString`), with `None` for null.

The Kakao reader takes the nickname and the profile image from
`kakao_account.profile`, and the email from `kakao_account` itself
(`OAuthAttributes.java:83-85`). `Posts.java` declares no `update` method,
yet `PostsService.java:51` calls `posts.update(title, content)`, and the
integration test (`PostsApiControllerTest.java:148-150`) expects the title
and content to be replaced. `Posts.Posts.Update` models that behaviour.

## Model

| member | source | states |
|---|---|---|
| `Posts.Posts.constructor` | src/main/java/com/jung/springbook/domain/posts/Posts.java:53-58 | stores title, content and author exactly as given and sets no id |
| `Posts.Posts.Update` | src/main/java/com/jung/springbook/service/posts/PostsService.java:51 | replaces title and content in place; id and author are kept |
| `Posts.PostsSaveRequest.ToEntity` | src/main/java/com/jung/springbook/web/dto/PostsSaveRequestDto.java:30-36 | a new entity whose title, content and author are the request's, unchanged, with no id yet |
| `PostsService.PostsService.StoredPostFits` | src/main/java/com/jung/springbook/domain/posts/Posts.java:45-51 | every stored post's title is non-null and at most 500 characters, its content is non-null, and its author is null or at most the default 255 characters |
| `PostsService.PostsService.Save` | src/main/java/com/jung/springbook/service/posts/PostsService.java:41-44 | a row that fits the columns (title non-null and at most 500, content non-null, author null or at most 255 characters) is inserted under an id not in use before, with the request's title, content and author, and that id is returned; otherwise the insert fails and the table is unchanged |
| `PostsService.PostsService.Update` | src/main/java/com/jung/springbook/service/posts/PostsService.java:46-54 | an absent id fails with NotFound and changes nothing; on a present id only that post's title and content change, to the request's, and the same id is returned; author and all other posts are unchanged |
| `PostsService.PostsService.FindById` | src/main/java/com/jung/springbook/service/posts/PostsService.java:56-62 | changes nothing; fails with NotFound exactly when the id is absent, else returns a response built from exactly that post |
| `PostsService.ListResponses` | src/main/java/com/jung/springbook/service/posts/PostsService.java:68-70 | one entry per row of the query result, in the same order, each built from the post with that id |
| `PostsService.ListingCoversTable` | src/main/java/com/jung/springbook/service/posts/PostsService.java:68-70 | when the query returns every stored id, the listed ids are exactly the stored ids |
| `PostsService.PostsService.FindAllDesc` | src/main/java/com/jung/springbook/service/posts/PostsService.java:64-71 | changes nothing and lists the query's rows in the query's order, each entry matching the stored post |
| `PostsService.PostsService.Delete` | src/main/java/com/jung/springbook/service/posts/PostsService.java:73-78 | an absent id fails with NotFound and changes nothing; a present id removes exactly that post, and a table holding only it becomes empty |
| `OAuth.ProviderOf` | src/main/java/com/jung/springbook/config/auth/dto/OAuthAttributes.java:43-51 | provider matching is exact, case-sensitive equality with "naver" and "kakao"; every other id is read as Google |
| `OAuth.Of` | src/main/java/com/jung/springbook/config/auth/dto/OAuthAttributes.java:42-89 | name, email and picture are the strings at the provider's paths (Naver under "response"; Kakao's nickname and image under "kakao_account.profile" and its email under "kakao_account"; others at top level); Naver keeps only the inner map as attributes and the others keep the whole map; the key is "id" for Naver and Kakao and the caller's otherwise; the row covers the three readers `OfGoogle` (lines 54-64), `OfNaver` (66-76) and `OfKakao` (78-89) that `Of` dispatches to |
| `OAuth.FixedKeyIgnoresCaller` | src/main/java/com/jung/springbook/config/auth/dto/OAuthAttributes.java:42-48 | for Naver and Kakao the caller's user-name attribute has no effect on the result, and the key is "id" |
| `OAuth.OAuthAttributes.ToEntity` | src/main/java/com/jung/springbook/config/auth/dto/OAuthAttributes.java:91-98 | a new user with the attributes' name, email and picture and always the GUEST role |
| `Users.User.Update` | src/main/java/com/jung/springbook/config/auth/CustomOAuth2UserService.java:69 | overwrites name and picture in place; email and role are kept |
| `Users.Role.Key` | src/main/java/com/jung/springbook/config/auth/CustomOAuth2UserService.java:61 | a role's authority name carries the ROLE_ prefix, and it is "ROLE_GUEST" exactly for GUEST |
| `LoginService.UpsertKnownEmail` | src/main/java/com/jung/springbook/config/auth/CustomOAuth2UserService.java:68-69 | a known email keeps the same set of records; that user keeps email and role and gets the new name and picture |
| `LoginService.UpsertNewEmail` | src/main/java/com/jung/springbook/config/auth/CustomOAuth2UserService.java:70 | an unknown email adds exactly one record, a GUEST user built from the attributes, whose authority is ROLE_GUEST |
| `LoginService.UpsertFrame` | src/main/java/com/jung/springbook/config/auth/CustomOAuth2UserService.java:68-72 | afterwards the email is stored, and users with every other email are unchanged |
| `LoginService.CustomOAuth2UserService.SaveOrUpdate` | src/main/java/com/jung/springbook/config/auth/CustomOAuth2UserService.java:67-73 | the table becomes the upsert of the old one; the returned user is the one stored under the email, the same entity when the email was known and a new one otherwise; one record per email is kept |
| `LoginService.CustomOAuth2UserService.LoadUser` | src/main/java/com/jung/springbook/config/auth/CustomOAuth2UserService.java:47-64 | normalises the claims, upserts the user, and returns a principal with exactly one authority (the saved user's role key) plus the normalised attributes and key; on a first login that authority is ROLE_GUEST |
| `Profile.FindAnyReal` | src/main/java/com/jung/springbook/web/ProfileController.java:30-32 | finds some active profile that is real, if there is one, and otherwise reports that none is real; it does not promise which one |
| `Profile.Profile` | src/main/java/com/jung/springbook/web/ProfileController.java:23-34 | if a real profile is active the result is an active real one; with no real one it is the first active profile; with none active it is "default"; it is always an active profile or "default" |
| `Profile.PrefixIsNotReal` | src/main/java/com/jung/springbook/web/ProfileController.java:26-33 | membership is exact equality: "real-db" is not real, so with "oauth" and "real-db" active the result is "oauth" |

## Left out

- The persistence framework is not modelled. This covers JPA, Spring Data query derivation, dirty checking, and `@Transactional` commit and rollback. Each repository is a map held by its service class. PostsRepository, UserRepository, User.java and Role.java are not part of this model. The user fields and the role keys follow how they are used at `CustomOAuth2UserService.java:61-70` and `SecurityConfig.java:57`.
- PostsService.PostsService.Update: the flush happens at commit, and a row that breaks a column constraint fails there and is rolled back. The model checks the constraint before changing the entity, so the in-memory mutation that the rollback undoes is not modelled.
- PostsService.PostsService.Save: the model assumes that a refused insert does not consume an auto-increment value. The database may consume one.
- PostsService.PostsService.FindAllDesc: the `findAllDesc` query and its ordering are the repository's. They are not modelled. The query result is passed in as the ids of the stored rows it returned.
- PostsResponseDto, PostsListResponseDto and PostsUpdateRequestDto are not part of this model. Both responses are modelled as a snapshot of the post (its id and row).
- Column lengths are counted in Dafny characters, not Java UTF-16 code units. Ids are unbounded integers: `Long` overflow and a null id argument are not modelled.
- The created and modified timestamps (BaseTimeEntity.java) are not modelled. They come from an auditing listener and the system clock.
- OAuth.Of: a missing nested map (NullPointerException) and a value of the wrong type (ClassCastException) are excluded by the precondition `CanNormalize`. They are not modelled as an error result, because the source does not handle them.
- The network call to the provider's user-info endpoint (`DefaultOAuth2UserService.loadUser`) is not modelled. `LoadUser` takes the claims it would return as a parameter.
- The principal's own checks, that the user-name key is non-empty and present in the attributes, are not modelled. They belong to the security framework.
- Storing the user in the HTTP session (`httpSession.setAttribute`) is not modelled. It is session I/O.
- The `System.out.println` calls are not modelled. They are console output.
- LoginService.CustomOAuth2UserService.SaveOrUpdate: Java's `orElse(attributes.toEntity())` builds a new user even when the email is found, and then discards it. The model builds one only when needed, because the discarded object is never observable.
- Profile.FindAnyReal: the definition takes the first real profile, while `findAny` is free to pick any. The contract promises only some real profile.
- SecurityConfig.java, JpaConfig.java, Application.java, LoginUser.java, HelloController.java and HelloResponseDto.java are not modelled. They hold framework configuration, bootstrapping, or constant endpoints.
