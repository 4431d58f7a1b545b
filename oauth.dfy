/** Normalisation of the user-info claims each OAuth provider returns into
    one shape: name, email, picture, the attribute map to keep and the key
    that identifies the user in it. */
module OAuth {
  import opened Wrappers
  import opened Users

  /** A claims value as the provider's JSON decodes it: a string, a nested
      object, null, or anything else (a number, a boolean, a list). */
  datatype Json = JStr(s: string) | JObj(fields: map<string, Json>) | JNull | JOther

  type Claims = map<string, Json>

  /** `m.get(key)`: null for an absent key. */
  function Get(m: Claims, key: string): Json
  {
    if key in m then m[key] else JNull
  }

  /** The normalised attributes. */
  datatype OAuthAttributes = OAuthAttributes(
    attributes: Claims,
    nameAttributeKey: string,
    name: NullableString,
    email: NullableString,
    picture: NullableString)
  {
    /** The user a first login creates: name, email and picture copied, and
        always the GUEST role. */
    method ToEntity() returns (u: User)
      ensures fresh(u)
      ensures u.AsRecord() == UserRecord(name, email, picture, GUEST)
    {
      u := new User(name, email, picture, GUEST);
    }
  }

  // ---------------------------------------------------------------------
  // The reference: where each provider keeps each field

  /** `Google` stands for every registration id other than the two below. */
  datatype Provider = Naver | Kakao | Google

  /** Matching is exact, case-sensitive equality, and "naver" is tried first. */
  function ProviderOf(registrationId: string): (p: Provider)
    ensures p == Naver <==> registrationId == "naver"
    ensures p == Kakao <==> registrationId == "kakao"
  {
    if registrationId == "naver" then Naver
    else if registrationId == "kakao" then Kakao
    else Google
  }

  function NamePath(p: Provider): seq<string>
  {
    match p
    case Naver => ["response", "name"]
    case Kakao => ["kakao_account", "profile", "nickname"]
    case Google => ["name"]
  }

  function EmailPath(p: Provider): seq<string>
  {
    match p
    case Naver => ["response", "email"]
    case Kakao => ["kakao_account", "email"]
    case Google => ["email"]
  }

  function PicturePath(p: Provider): seq<string>
  {
    match p
    case Naver => ["response", "profile_image"]
    case Kakao => ["kakao_account", "profile", "profile_image"]
    case Google => ["picture"]
  }

  /** The string found by following a path of keys through nested objects;
      null when a key is absent or a value on the way has the wrong kind. */
  function StringAt(m: Claims, path: seq<string>): NullableString
    decreases |path|
  {
    if path == [] then None
    else
      var v := Get(m, path[0]);
      if |path| == 1 then (if v.JStr? then Some(v.s) else None)
      else if v.JObj? then StringAt(v.fields, path[1..])
      else None
  }

  /** Following the path neither dereferences null nor casts a value to the
      wrong type: every step is an object and the leaf a string or null. */
  predicate Readable(m: Claims, path: seq<string>)
    decreases |path|
  {
    && path != []
    && var v := Get(m, path[0]);
       if |path| == 1 then v.JStr? || v.JNull?
       else v.JObj? && Readable(v.fields, path[1..])
  }

  /** The claims can be normalised for this provider without an exception. */
  predicate CanNormalize(registrationId: string, attributes: Claims)
  {
    var p := ProviderOf(registrationId);
    Readable(attributes, NamePath(p)) && Readable(attributes, EmailPath(p)) && Readable(attributes, PicturePath(p))
  }

  // ---------------------------------------------------------------------
  // The normalisation as the service performs it

  /** `(String) v`: a string, or null for null; any other value would throw. */
  function CastString(v: Json): NullableString
    requires v.JStr? || v.JNull?
  {
    if v.JStr? then Some(v.s) else None
  }

  /** `(Map<String, Object>) v` about to be read: null would throw on the
      read and any other value on the cast. */
  function CastMap(v: Json): Claims
    requires v.JObj?
  {
    v.fields
  }

  /** Normalises the claims of the provider named by `registrationId`:
      name, email and picture are read from that provider's paths; Naver
      keeps only the inner "response" object as attributes, the others keep
      the whole map; Naver and Kakao identify the user by "id" whatever the
      caller passed, the others by the caller's `userNameAttributeName`. */
  function Of(registrationId: string, userNameAttributeName: string, attributes: Claims): (r: OAuthAttributes)
    requires CanNormalize(registrationId, attributes)
    ensures var p := ProviderOf(registrationId);
      && r.name == StringAt(attributes, NamePath(p))
      && r.email == StringAt(attributes, EmailPath(p))
      && r.picture == StringAt(attributes, PicturePath(p))
      && r.attributes == (if p == Naver then Get(attributes, "response").fields else attributes)
      && r.nameAttributeKey == (if p == Google then userNameAttributeName else "id")
  {
    PathTails();
    if registrationId == "naver" then OfNaver("id", attributes)
    else if registrationId == "kakao" then OfKakao("id", attributes)
    else OfGoogle(userNameAttributeName, attributes)
  }

  /** The tails of the provider paths, so that following a path can be
      unfolded one key at a time. */
  lemma PathTails()
    ensures NamePath(Naver)[1..] == ["name"]
    ensures EmailPath(Naver)[1..] == ["email"]
    ensures PicturePath(Naver)[1..] == ["profile_image"]
    ensures NamePath(Kakao)[1..] == ["profile", "nickname"] && ["profile", "nickname"][1..] == ["nickname"]
    ensures EmailPath(Kakao)[1..] == ["email"]
    ensures PicturePath(Kakao)[1..] == ["profile", "profile_image"] && ["profile", "profile_image"][1..] == ["profile_image"]
  {
  }

  function OfGoogle(userNameAttributeName: string, attributes: Claims): OAuthAttributes
    requires Readable(attributes, ["name"]) && Readable(attributes, ["email"]) && Readable(attributes, ["picture"])
  {
    OAuthAttributes(
      attributes := attributes,
      nameAttributeKey := userNameAttributeName,
      name := CastString(Get(attributes, "name")),
      email := CastString(Get(attributes, "email")),
      picture := CastString(Get(attributes, "picture")))
  }

  function OfNaver(userNameAttributeName: string, attributes: Claims): OAuthAttributes
    requires Get(attributes, "response").JObj?
    requires var response := Get(attributes, "response").fields;
      Readable(response, ["name"]) && Readable(response, ["email"]) && Readable(response, ["profile_image"])
  {
    var response := CastMap(Get(attributes, "response"));
    OAuthAttributes(
      attributes := response,
      nameAttributeKey := userNameAttributeName,
      name := CastString(Get(response, "name")),
      email := CastString(Get(response, "email")),
      picture := CastString(Get(response, "profile_image")))
  }

  function OfKakao(userNameAttributeName: string, attributes: Claims): OAuthAttributes
    requires Get(attributes, "kakao_account").JObj?
    requires Get(Get(attributes, "kakao_account").fields, "profile").JObj?
    requires var response := Get(attributes, "kakao_account").fields;
      var profile := Get(response, "profile").fields;
      Readable(profile, ["nickname"]) && Readable(response, ["email"]) && Readable(profile, ["profile_image"])
  {
    var response := CastMap(Get(attributes, "kakao_account"));
    var profile := CastMap(Get(response, "profile"));
    OAuthAttributes(
      attributes := attributes,
      nameAttributeKey := userNameAttributeName,
      name := CastString(Get(profile, "nickname")),
      email := CastString(Get(response, "email")),
      picture := CastString(Get(profile, "profile_image")))
  }

  /** For Naver and Kakao the caller's user-name attribute has no effect. */
  lemma FixedKeyIgnoresCaller(registrationId: string, a: string, b: string, attributes: Claims)
    requires registrationId == "naver" || registrationId == "kakao"
    requires CanNormalize(registrationId, attributes)
    ensures Of(registrationId, a, attributes) == Of(registrationId, b, attributes)
    ensures Of(registrationId, a, attributes).nameAttributeKey == "id"
  {
  }
}
