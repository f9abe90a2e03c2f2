/** The `User` snapshot and its constructor (hashnode_py/resources/user.py). */
module Users {
  import opened Wrappers
  import opened Json
  import opened Transport

  datatype User = User(
    client: Handle,
    username: Json,
    id: Json,
    name: Json,
    bio: Json,
    profilePicture: Json,
    followersCount: Json,
    followingsCount: Json,
    tagline: Json,
    dateJoined: Json,
    location: Json,
    availableFor: Json,
    deactivated: Json,
    following: Json,
    followsBack: Json,
    isPro: Json)

  /** The nodes the constructor accepts: every field present and `bio` a dict holding 'text'. */
  predicate Decodable(node: Json) {
    && Has(node, "username")
    && Has(node, "id")
    && Has(node, "name")
    && HasPath(node, "bio", "text")
    && Has(node, "profilePicture")
    && Has(node, "followersCount")
    && Has(node, "followingsCount")
    && Has(node, "tagline")
    && Has(node, "dateJoined")
    && Has(node, "location")
    && Has(node, "availableFor")
    && Has(node, "deactivated")
    && Has(node, "following")
    && Has(node, "followsBack")
    && Has(node, "isPro")
  }

  /** `User(data, client)`: `bio` is read through `bio.text` with no guard. */
  function DecodeUser(node: Json, client: Handle): (r: Result<User, Err>)
    ensures r.Success? <==> Decodable(node)
    ensures r.Success? ==> r.value == User(
      client := client,
      username := node.fields["username"],
      id := node.fields["id"],
      name := node.fields["name"],
      bio := node.fields["bio"].fields["text"],
      profilePicture := node.fields["profilePicture"],
      followersCount := node.fields["followersCount"],
      followingsCount := node.fields["followingsCount"],
      tagline := node.fields["tagline"],
      dateJoined := node.fields["dateJoined"],
      location := node.fields["location"],
      availableFor := node.fields["availableFor"],
      deactivated := node.fields["deactivated"],
      following := node.fields["following"],
      followsBack := node.fields["followsBack"],
      isPro := node.fields["isPro"])
  {
    var username :- Field(node, "username");
    var id :- Field(node, "id");
    var name :- Field(node, "name");
    var bio :- Nested(node, "bio", "text");
    var profilePicture :- Field(node, "profilePicture");
    var followersCount :- Field(node, "followersCount");
    var followingsCount :- Field(node, "followingsCount");
    var tagline :- Field(node, "tagline");
    var dateJoined :- Field(node, "dateJoined");
    var location :- Field(node, "location");
    var availableFor :- Field(node, "availableFor");
    var deactivated :- Field(node, "deactivated");
    var following :- Field(node, "following");
    var followsBack :- Field(node, "followsBack");
    var isPro :- Field(node, "isPro");
    Success(User(client, username, id, name, bio, profilePicture, followersCount, followingsCount,
                 tagline, dateJoined, location, availableFor, deactivated, following, followsBack, isPro))
  }

  /** The user node the user, followers and follows selections describe. */
  function EncodeUser(u: User): Json {
    JObj(map[
      "id" := u.id,
      "username" := u.username,
      "name" := u.name,
      "bio" := JObj(map["text" := u.bio]),
      "profilePicture" := u.profilePicture,
      "followersCount" := u.followersCount,
      "followingsCount" := u.followingsCount,
      "tagline" := u.tagline,
      "dateJoined" := u.dateJoined,
      "location" := u.location,
      "availableFor" := u.availableFor,
      "deactivated" := u.deactivated,
      "following" := u.following,
      "followsBack" := u.followsBack,
      "isPro" := u.isPro])
  }

  lemma UserRoundTrip(u: User)
    ensures DecodeUser(EncodeUser(u), u.client) == Success(u)
  {
    assert Decodable(EncodeUser(u));
  }

  /** A user whose bio is null cannot be decoded: the read of 'text' raises a TypeError. */
  lemma NullBioFails(node: Json, client: Handle)
    requires Has(node, "username") && Has(node, "id") && Has(node, "name")
    requires Has(node, "bio") && node.fields["bio"] == JNull
    ensures DecodeUser(node, client).Failure?
    ensures DecodeUser(node, client).error.TypeError?
  {
  }
}
