/**
 * The private-API client (`InstaService`): the checks `create` makes on its
 * credentials, the caption built from the hashtags, the order of the calls
 * `postPhotoToInsta` makes, and the user-tag list resolved from names. The
 * client library is an oracle: what each of its calls answers is an input.
 */
module PrivateApi {
  import opened Wrappers
  import Text

  datatype Credentials = Credentials(username: string, password: string)

  datatype PrivateError =
    | UsernameRequired
    | PasswordRequired
    | ImageUrlRequired
    | LoginFailed
    | DownloadFailed
    | LatitudeOutOfRange
    | LongitudeOutOfRange
    | LocationSearchFailed
    | PublishFailed

  predicate Truthy(s: Option<string>) {
    s.Some? && s.value != ""
  }

  /** A coordinate is truthy when it is present and not zero. */
  predicate TruthyNumber(x: Option<real>) {
    x.Some? && x.value != 0.0
  }

  /**
   * `InstaService.create`'s checks: a username that is missing or only white
   * space, then a missing or empty password, is rejected; the username is kept
   * trimmed. Restoring or creating the session is not part of this model.
   */
  function Create(username: Option<string>, password: Option<string>): (r: Result<Credentials, PrivateError>)
    ensures r == Err(UsernameRequired) <==> username.None? || Text.Trim(username.value) == ""
    ensures r == Err(PasswordRequired) <==>
      username.Some? && Text.Trim(username.value) != "" && (password.None? || password.value == "")
    ensures r.Ok? ==> r.value.username == Text.Trim(username.value) && r.value.password == password.value
    ensures r.Ok? ==> r.value.username != "" && !Text.IsSpace(r.value.username[0])
                      && !Text.IsSpace(r.value.username[|r.value.username| - 1])
  {
    if username.None? || Text.Trim(username.value) == "" then Err(UsernameRequired)
    else if password.None? || password.value == "" then Err(PasswordRequired)
    else Ok(Credentials(Text.Trim(username.value), password.value))
  }

  /** Creating from an already trimmed username gives the same result. */
  lemma CreateOfTrimmed(username: string, password: Option<string>)
    ensures Create(Some(Text.Trim(username)), password) == Create(Some(username), password)
  {
    Text.TrimIdempotent(username);
  }

  /** How JavaScript turns a possibly undefined caption into text when it is concatenated. */
  function CaptionText(caption: Option<string>): string {
    caption.GetOr("undefined")
  }

  /**
   * The caption `postPhotoToInsta` publishes: when tags are given (even an
   * empty list) the caption, a space and the hashtags; otherwise the caption
   * as it was.
   */
  function BuildCaption(caption: Option<string>, tags: Option<seq<string>>): (r: Option<string>)
    ensures tags.None? ==> r == caption
    ensures tags.Some? ==> r.Some? && Text.StartsWith(r.value, CaptionText(caption) + " ")
    ensures tags.Some? ==> |r.value| == |CaptionText(caption)| + 1 + |Text.Hashtags(tags.value)|
    ensures tags.Some? ==> r.value[|CaptionText(caption)| + 1..] == Text.Hashtags(tags.value)
  {
    match tags
    case None => caption
    case Some(ts) =>
      var prefix := CaptionText(caption) + " ";
      var text := prefix + Text.Hashtags(ts);
      assert text[..|prefix|] == prefix;
      Some(text)
  }

  /**
   * The words of a built caption are the words of the caption followed by one
   * "#tag" per tag, when the tags hold no spaces.
   */
  lemma BuildCaptionWords(caption: Option<string>, tags: seq<string>)
    requires |tags| >= 1 && forall i :: 0 <= i < |tags| ==> ' ' !in tags[i]
    ensures Text.Split(BuildCaption(caption, Some(tags)).value, ' ')
         == Text.Split(CaptionText(caption), ' ') + seq(|tags|, i requires 0 <= i < |tags| => "#" + tags[i])
  {
    Text.SplitAround(CaptionText(caption), ' ', Text.Hashtags(tags));
    Text.HashtagsSplit(tags);
  }

  datatype Location = Location(latitude: Option<real>, longitude: Option<real>)

  /** The photo handed to the publish call: caption, user ids to tag, place. */
  datatype Photo = Photo(caption: Option<string>, userTags: Option<seq<int>>, location: Option<string>)

  /**
   * What the client library answers: whether the session is valid, whether
   * login succeeds, whether the image download succeeds, the places near a
   * point (None: the search throws), the id of a user (None: no exact match,
   * the lookup throws), and whether publishing succeeds.
   */
  datatype Client = Client(
    sessionValid: bool,
    loginSucceeds: bool,
    download: string -> bool,
    searchLocation: (real, real) -> Option<seq<string>>,
    searchUser: string -> Option<int>,
    publishSucceeds: bool)

  datatype Call =
    | CheckSession
    | Login
    | Download(url: string)
    | SearchLocation(latitude: real, longitude: real)
    | SearchUser(name: string)
    | Publish(photo: Photo)

  /** The ids of the names that resolve, in the order of the names; a failed lookup is skipped. */
  function ResolvedIds(names: seq<string>, searchUser: string -> Option<int>): (r: seq<int>)
    ensures |r| <= |names|
  {
    if names == [] then []
    else
      var last := names[|names| - 1];
      ResolvedIds(names[..|names| - 1], searchUser) + (match searchUser(last) case Some(pk) => [pk] case None => [])
  }

  /** Resolving two lists of names one after the other resolves their concatenation. */
  lemma {:induction false} ResolvedIdsAppend(a: seq<string>, b: seq<string>, searchUser: string -> Option<int>)
    ensures ResolvedIds(a + b, searchUser) == ResolvedIds(a, searchUser) + ResolvedIds(b, searchUser)
    decreases |b|
  {
    if b == [] {
      assert a + b == a;
    } else {
      assert (a + b)[..|a + b| - 1] == a + b[..|b| - 1];
      ResolvedIdsAppend(a, b[..|b| - 1], searchUser);
    }
  }

  /** When every name resolves, there is exactly one id per name, in the same order. */
  lemma {:induction false} AllNamesResolved(names: seq<string>, searchUser: string -> Option<int>)
    requires forall i :: 0 <= i < |names| ==> searchUser(names[i]).Some?
    ensures ResolvedIds(names, searchUser) == seq(|names|, i requires 0 <= i < |names| => searchUser(names[i]).value)
  {
    if names != [] {
      AllNamesResolved(names[..|names| - 1], searchUser);
    }
  }

  /** When no name resolves, the tag list is empty. */
  lemma {:induction false} NoNameResolved(names: seq<string>, searchUser: string -> Option<int>)
    requires forall i :: 0 <= i < |names| ==> searchUser(names[i]).None?
    ensures ResolvedIds(names, searchUser) == []
  {
    if names != [] {
      NoNameResolved(names[..|names| - 1], searchUser);
    }
  }

  /** `generateUserTagsFromNames`: one lookup per name, in order, keeping the ids that resolved. */
  method GenerateUserTagsFromNames(names: seq<string>, searchUser: string -> Option<int>)
    returns (ids: seq<int>, calls: seq<Call>)
    ensures ids == ResolvedIds(names, searchUser)
    ensures |calls| == |names| && forall i :: 0 <= i < |names| ==> calls[i] == SearchUser(names[i])
  {
    ids := [];
    calls := [];
    for i := 0 to |names|
      invariant ids == ResolvedIds(names[..i], searchUser)
      invariant |calls| == i && forall j :: 0 <= j < i ==> calls[j] == SearchUser(names[j])
    {
      assert names[..i + 1][..i] == names[..i];
      calls := calls + [SearchUser(names[i])];
      match searchUser(names[i]) {
        case Some(pk) => ids := ids + [pk];
        case None =>
      }
    }
    assert names[..|names|] == names;
  }

  /** Both coordinates are truthy, so `postPhotoToInsta` looks up a place. */
  predicate HasCoordinates(location: Option<Location>) {
    location.Some? && TruthyNumber(location.value.latitude) && TruthyNumber(location.value.longitude)
  }

  predicate InRange(latitude: real, longitude: real) {
    -90.0 <= latitude <= 90.0 && -180.0 <= longitude <= 180.0
  }

  /** The place lookup does not throw: there is nothing to look up, or both coordinates are in range and the search answers. */
  predicate PlaceLookupSucceeds(location: Option<Location>, client: Client) {
    HasCoordinates(location) ==>
      var lat, lon := location.value.latitude.value, location.value.longitude.value;
      InRange(lat, lon) && client.searchLocation(lat, lon).Some?
  }

  /** The place a lookup that does not throw uses: the first place found, if any. */
  function FoundPlace(location: Option<Location>, client: Client): Option<string>
    requires PlaceLookupSucceeds(location, client)
  {
    if !HasCoordinates(location) then None
    else
      var places := client.searchLocation(location.value.latitude.value, location.value.longitude.value).value;
      if |places| > 0 then Some(places[0]) else None
  }

  /** A search request that the range checks let through, for a location with truthy coordinates. */
  predicate CheckedSearch(c: Call, location: Option<Location>) {
    c.SearchLocation? && location.Some? && TruthyNumber(location.value.latitude) && TruthyNumber(location.value.longitude)
    && c == SearchLocation(location.value.latitude.value, location.value.longitude.value)
    && -90.0 <= c.latitude <= 90.0 && -180.0 <= c.longitude <= 180.0
  }

  /** Every location search among `calls` is a checked one. */
  predicate SearchesChecked(calls: seq<Call>, location: Option<Location>) {
    forall i :: 0 <= i < |calls| && calls[i].SearchLocation? ==> CheckedSearch(calls[i], location)
  }

  lemma SearchesCheckedAppend(a: seq<Call>, b: seq<Call>, location: Option<Location>)
    requires SearchesChecked(a, location) && SearchesChecked(b, location)
    ensures SearchesChecked(a + b, location)
  {
    forall i | 0 <= i < |a + b| && (a + b)[i].SearchLocation?
      ensures CheckedSearch((a + b)[i], location)
    {
      if i >= |a| {
        assert (a + b)[i] == b[i - |a|];
      }
    }
  }

  /**
   * The place lookup of `postPhotoToInsta`: nothing is searched unless both
   * coordinates are truthy; an out-of-range latitude, then longitude, throws
   * before the search; a failing search throws; otherwise the first place
   * found, if any, is used.
   */
  method LookUpPlace(location: Option<Location>, client: Client) returns (r: Result<Option<string>, PrivateError>, calls: seq<Call>)
    ensures !(location.Some? && TruthyNumber(location.value.latitude) && TruthyNumber(location.value.longitude))
      ==> r == Ok(None) && calls == []
    ensures (location.Some? && TruthyNumber(location.value.latitude) && TruthyNumber(location.value.longitude)
             && (location.value.latitude.value > 90.0 || location.value.latitude.value < -90.0))
      ==> r == Err(LatitudeOutOfRange) && calls == []
    ensures (HasCoordinates(location) && -90.0 <= location.value.latitude.value <= 90.0
             && (location.value.longitude.value > 180.0 || location.value.longitude.value < -180.0))
      ==> r == Err(LongitudeOutOfRange) && calls == []
    ensures |calls| <= 1 && forall i :: 0 <= i < |calls| ==> CheckedSearch(calls[i], location)
    // Coordinates in range are always searched; the lookup succeeds exactly when the search answers.
    ensures HasCoordinates(location) && InRange(location.value.latitude.value, location.value.longitude.value)
      ==> calls == [SearchLocation(location.value.latitude.value, location.value.longitude.value)]
    ensures r.Ok? <==> PlaceLookupSucceeds(location, client)
    ensures r.Ok? ==> r.value == FoundPlace(location, client)
    ensures r.Err? && HasCoordinates(location) && InRange(location.value.latitude.value, location.value.longitude.value)
      ==> r == Err(LocationSearchFailed)
    ensures r.Ok? && r.value.Some? ==>
      && location.Some? && TruthyNumber(location.value.latitude) && TruthyNumber(location.value.longitude)
      && var answer := client.searchLocation(location.value.latitude.value, location.value.longitude.value);
         answer.Some? && |answer.value| > 0 && r.value.value == answer.value[0]
  {
    calls := [];
    if !(location.Some? && TruthyNumber(location.value.latitude) && TruthyNumber(location.value.longitude)) {
      return Ok(None), calls;
    }
    var lat, lon := location.value.latitude.value, location.value.longitude.value;
    if lat > 90.0 || lat < -90.0 {
      return Err(LatitudeOutOfRange), calls;
    }
    if lon > 180.0 || lon < -180.0 {
      return Err(LongitudeOutOfRange), calls;
    }
    calls := [SearchLocation(lat, lon)];
    match client.searchLocation(lat, lon) {
      case None =>
        r := Err(LocationSearchFailed);
      case Some(places) =>
        r := Ok(if |places| > 0 then Some(places[0]) else None);
    }
  }

  /**
   * The first steps of `postPhotoToInsta`: check the session and log in again
   * when it is not valid, require an image URL, download the image.
   */
  method OpenAndDownload(imageUrl: Option<string>, client: Client) returns (r: Result<(), PrivateError>, calls: seq<Call>)
    ensures 1 <= |calls| <= 3 && calls[0] == CheckSession
    ensures (|calls| >= 2 && calls[1] == Login) <==> !client.sessionValid
    ensures forall i :: 0 <= i < |calls| ==> !calls[i].SearchLocation? && (calls[i].Download? ==> Truthy(imageUrl))
    ensures r.Ok? <==> (client.sessionValid || client.loginSucceeds) && Truthy(imageUrl) && client.download(imageUrl.value)
  {
    calls := [CheckSession];
    if !client.sessionValid {
      calls := calls + [Login];
      if !client.loginSucceeds {
        return Err(LoginFailed), calls;
      }
    }
    if !Truthy(imageUrl) {
      return Err(ImageUrlRequired), calls;
    }
    calls := calls + [Download(imageUrl.value)];
    if !client.download(imageUrl.value) {
      return Err(DownloadFailed), calls;
    }
    r := Ok(());
  }

  /**
   * `postPhotoToInsta`: check the session (logging in again when it is not
   * valid), require an image URL, download the image, look up the place,
   * build the caption and the user tags, publish. A thrown error is an Err.
   */
  method PostPhotoToInsta(imageUrl: Option<string>, caption: Option<string>, tags: Option<seq<string>>,
                          location: Option<Location>, userNamesToTag: Option<seq<string>>, client: Client)
    returns (r: Result<Photo, PrivateError>, calls: seq<Call>)
    ensures |calls| >= 1 && calls[0] == CheckSession
    ensures (|calls| >= 2 && calls[1] == Login) <==> !client.sessionValid
    ensures !Truthy(imageUrl) ==> r.Err? && forall i :: 0 <= i < |calls| ==> !calls[i].Download?
    ensures SearchesChecked(calls, location)
    ensures ((client.sessionValid || client.loginSucceeds) && Truthy(imageUrl) && client.download(imageUrl.value)
             && location.Some? && TruthyNumber(location.value.latitude) && TruthyNumber(location.value.longitude)
             && (location.value.latitude.value > 90.0 || location.value.latitude.value < -90.0))
      ==> r == Err(LatitudeOutOfRange)
    ensures ((client.sessionValid || client.loginSucceeds) && Truthy(imageUrl) && client.download(imageUrl.value)
             && HasCoordinates(location) && -90.0 <= location.value.latitude.value <= 90.0
             && (location.value.longitude.value > 180.0 || location.value.longitude.value < -180.0))
      ==> r == Err(LongitudeOutOfRange)
    // The photo is published exactly when the session, the download, the place lookup and the publication all succeed.
    ensures r.Ok? <==>
      (client.sessionValid || client.loginSucceeds) && Truthy(imageUrl) && client.download(imageUrl.value)
      && PlaceLookupSucceeds(location, client) && client.publishSucceeds
    ensures r.Ok? ==> calls[|calls| - 1] == Publish(r.value) && client.publishSucceeds
    ensures r.Ok? ==> r.value.location == FoundPlace(location, client)
    ensures r.Ok? ==> r.value.caption == BuildCaption(caption, tags)
    ensures r.Ok? ==> r.value.userTags == (match userNamesToTag
                                            case None => None
                                            case Some(names) => Some(ResolvedIds(names, client.searchUser)))
    ensures r.Ok? && r.value.location.Some? ==>
      && location.Some? && TruthyNumber(location.value.latitude) && TruthyNumber(location.value.longitude)
      && var answer := client.searchLocation(location.value.latitude.value, location.value.longitude.value);
         answer.Some? && |answer.value| > 0 && r.value.location.value == answer.value[0]
  {
    var session, prefix := OpenAndDownload(imageUrl, client);
    if session.Err? {
      return Err(session.error), prefix;
    }
    var place, searches := LookUpPlace(location, client);
    calls := prefix + searches;
    SearchesCheckedAppend(prefix, searches, location);
    if place.Err? {
      return Err(place.error), calls;
    }
    var published, tail := PublishPhoto(caption, tags, place.value, userNamesToTag, client);
    assert SearchesChecked(tail, location);
    SearchesCheckedAppend(calls, tail, location);
    calls := calls + tail;
    r := published;
  }

  /**
   * The end of `postPhotoToInsta` once the place is known: the caption is
   * built, the user tags are resolved when names are given, and the photo is
   * published.
   */
  method PublishPhoto(caption: Option<string>, tags: Option<seq<string>>, place: Option<string>,
                      userNamesToTag: Option<seq<string>>, client: Client)
    returns (r: Result<Photo, PrivateError>, calls: seq<Call>)
    ensures |calls| >= 1 && forall i :: 0 <= i < |calls| ==> calls[i].SearchUser? || calls[i].Publish?
    ensures r.Ok? <==> client.publishSucceeds
    ensures r.Err? ==> r.error == PublishFailed
    ensures var photo := Photo(BuildCaption(caption, tags),
                               match userNamesToTag
                               case None => None
                               case Some(names) => Some(ResolvedIds(names, client.searchUser)),
                               place);
      calls[|calls| - 1] == Publish(photo) && (r.Ok? ==> r.value == photo)
  {
    var text := BuildCaption(caption, tags);
    var userTags: Option<seq<int>> := None;
    var lookups: seq<Call> := [];
    if userNamesToTag.Some? {
      var ids;
      ids, lookups := GenerateUserTagsFromNames(userNamesToTag.value, client.searchUser);
      userTags := Some(ids);
    }
    var photo := Photo(text, userTags, place);
    calls := lookups + [Publish(photo)];
    if !client.publishSucceeds {
      return Err(PublishFailed), calls;
    }
    r := Ok(photo);
  }
}
