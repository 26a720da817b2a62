/**
 * The pure parts of the Graph API client: caption and user-tag formatting,
 * the body of a media-container request per media type, the capped
 * exponential-backoff wait for a container, the coordinate checks of the
 * place search, and the success/failure wrapping of the posting calls.
 * The provider is an oracle: what it answers to each request is an input.
 */
module GraphApi {
  import opened Wrappers
  import Text

  const InitialDelay := 5000
  const MaxDelay := 20000
  const MaxElapsedTime := 300000
  const MaxCarouselSize := 10

  datatype MediaType = SinglePost | CarouselItem | Carousel | Stories | OtherType(name: string)

  /** A user tag; its position on the image is random and not modelled. */
  datatype UserTag = UserTag(username: string)

  /** The body sent to `/media`; a None field is absent from the body. */
  datatype MediaData = MediaData(
    accessToken: string,
    imageUrl: Option<string>,
    caption: Option<string>,
    userTags: Option<seq<UserTag>>,
    isCarouselItem: Option<bool>,
    children: Option<seq<string>>,
    mediaType: Option<string>)

  /** The arguments of `_createMediaContainer`; None is an argument left undefined. */
  datatype PostParams = PostParams(
    mediaType: MediaType,
    imageUrl: Option<string>,
    caption: Option<string>,
    tags: Option<seq<string>>,
    userNamesToTag: Option<seq<string>>,
    mediaContainers: Option<seq<string>>)

  datatype GraphError =
    | ImageUrlRequired              // postPhotoToInsta's own check
    | NonCarouselImageUrlRequired   // _createMediaContainer's check
    | ContainerCreationFailed
    | StatusCheckFailed
    | ResponseNotDefined            // status ERROR: the message reads a `response` that is not in scope
    | MaxElapsedTimeReached
    | PublicationFailed
    | CaptionNotDefined             // the carousel container reads a `caption` that is not in scope
    | CarouselTooLarge

  datatype ContainerStatus = Finished | Error | OtherStatus(code: string)

  /** The answer to one status poll. */
  datatype Probe = Status(status: ContainerStatus) | ProbeFailed

  datatype PublishAnswer = PublishedAs(id: Option<string>) | PublishFailed

  /**
   * What the provider answers: the container id for a creation request (None:
   * the request failed), the answer to the k-th status poll of a container,
   * and the answer to a publication request.
   */
  datatype Provider = Provider(
    create: MediaData -> Option<string>,
    probe: (string, nat) -> Probe,
    publish: string -> PublishAnswer)

  datatype Request =
    | CreateContainer(data: MediaData)
    | CheckStatus(container: string, poll: nat)
    | PublishContainer(container: string)
    | SearchPlace(latitude: real, longitude: real)

  /** What postPhotoToInsta and postStoryToInsta return; the story form carries the error. */
  datatype Outcome = Success(id: string) | Failure(error: Option<GraphError>)

  predicate Truthy(s: Option<string>) {
    s.Some? && s.value != ""
  }

  function Min(a: int, b: int): int {
    if a <= b then a else b
  }

  /** `_formatCaption`: the caption, a blank line, the hashtags, trimmed; undefined arguments default to "" and []. */
  function FormatCaption(caption: Option<string>, tags: Option<seq<string>>): (r: string)
    ensures r == [] <==> Text.AllSpace(caption.GetOr("")) && tags.GetOr([]) == []
    ensures r == [] || (!Text.IsSpace(r[0]) && !Text.IsSpace(r[|r| - 1]))
  {
    var c, h := caption.GetOr(""), Text.Hashtags(tags.GetOr([]));
    Text.AllSpaceConcat(c + "\n\n", h);
    Text.AllSpaceConcat(c, "\n\n");
    Text.Trim(c + "\n\n" + h)
  }

  /** Without hashtags the formatted caption is the trimmed caption. */
  lemma FormatCaptionWithoutTags(caption: Option<string>, tags: Option<seq<string>>)
    requires tags.None? || tags.value == []
    ensures FormatCaption(caption, tags) == Text.Trim(caption.GetOr(""))
  {
    assert Text.Hashtags([]) == "";
    var c := caption.GetOr("");
    assert c + "\n\n" + "" == c + "\n\n";
    Text.TrimIgnoresTrailingSpace(c, "\n\n");
  }

  /** A caption with no surrounding white space is kept whole, followed by a blank line and the hashtags. */
  lemma FormatCaptionKeepsCleanCaption(caption: string, tags: seq<string>)
    requires caption != [] && !Text.IsSpace(caption[0]) && !Text.IsSpace(caption[|caption| - 1])
    requires tags != [] && tags[|tags| - 1] != [] && !Text.IsSpace(tags[|tags| - 1][|tags[|tags| - 1]| - 1])
    ensures FormatCaption(Some(caption), Some(tags)) == caption + "\n\n" + Text.Hashtags(tags)
  {
    var h := Text.Hashtags(tags);
    var s := caption + "\n\n" + h;
    var last := "#" + tags[|tags| - 1];
    assert h[|h| - |last|..] == last;
    assert s[|s| - 1] == h[|h| - 1] == last[|last| - 1];
    Text.TrimOfClean(s);
  }

  /** `_formatUserTags`: one tag per name, in order. */
  function FormatUserTags(names: seq<string>): (r: seq<UserTag>)
    ensures |r| == |names| && forall i :: 0 <= i < |names| ==> r[i].username == names[i]
  {
    seq(|names|, i requires 0 <= i < |names| => UserTag(names[i]))
  }

  function UserTagsOf(names: Option<seq<string>>): Option<seq<UserTag>> {
    match names
    case None => None
    case Some(ns) => Some(FormatUserTags(ns))
  }

  /** The body `_createMediaContainer` sends, or the error it throws before sending anything. */
  function BuildMediaData(token: string, p: PostParams): (r: Result<MediaData, GraphError>)
    ensures r.Err? <==> p.mediaType != Carousel && !Truthy(p.imageUrl)
    ensures r.Err? ==> r.error == NonCarouselImageUrlRequired
    ensures r.Ok? ==> r.value.accessToken == token
  {
    if p.mediaType != Carousel && !Truthy(p.imageUrl) then Err(NonCarouselImageUrlRequired)
    else
      var none := MediaData(token, None, None, None, None, None, None);
      match p.mediaType
      case SinglePost =>
        Ok(none.(imageUrl := p.imageUrl, caption := Some(FormatCaption(p.caption, p.tags)),
                 userTags := UserTagsOf(p.userNamesToTag), isCarouselItem := Some(false)))
      case CarouselItem =>
        Ok(none.(imageUrl := p.imageUrl, userTags := UserTagsOf(p.userNamesToTag), isCarouselItem := Some(true)))
      case Carousel =>
        Ok(none.(caption := Some(FormatCaption(p.caption, p.tags)), children := p.mediaContainers))
      case Stories =>
        Ok(none.(imageUrl := p.imageUrl, mediaType := Some("STORIES")))
      case OtherType(_) =>
        Ok(none)
  }

  /**
   * Which fields each media type puts in the body: a caption only for single
   * posts and carousels, an image only for single posts, carousel items and
   * stories, user tags only for posts and items that name users, the carousel
   * flag only for posts and items, children only for carousels, and the media
   * type only for stories.
   */
  lemma MediaDataFields(token: string, p: PostParams)
    requires BuildMediaData(token, p).Ok?
    ensures var m := BuildMediaData(token, p).value;
      && (m.caption.Some? <==> p.mediaType == SinglePost || p.mediaType == Carousel)
      && (m.caption.Some? ==> m.caption.value == FormatCaption(p.caption, p.tags))
      && (m.imageUrl.Some? <==> p.mediaType in {SinglePost, CarouselItem, Stories})
      && (m.imageUrl.Some? ==> m.imageUrl == p.imageUrl)
      && (m.userTags.Some? <==> (p.mediaType == SinglePost || p.mediaType == CarouselItem) && p.userNamesToTag.Some?)
      && m.isCarouselItem == (if p.mediaType == SinglePost then Some(false)
                              else if p.mediaType == CarouselItem then Some(true) else None)
      && m.children == (if p.mediaType == Carousel then p.mediaContainers else None)
      && m.mediaType == (if p.mediaType == Stories then Some("STORIES") else None)
  {
  }

  function Pow2(k: nat): (r: nat)
    ensures r >= 1
  {
    if k == 0 then 1 else 2 * Pow2(k - 1)
  }

  /** The delay slept after the k-th status poll: the first is 5 s, each next one doubles, up to 20 s. */
  function Backoff(k: nat): (d: nat)
    ensures InitialDelay <= d <= MaxDelay
  {
    if k == 0 then InitialDelay else Min(2 * Backoff(k - 1), MaxDelay)
  }

  /** The delays follow min(5000 * 2^k, 20000). */
  lemma {:induction false} BackoffClosedForm(k: nat)
    ensures Backoff(k) == Min(InitialDelay * Pow2(k), MaxDelay)
  {
    if k > 0 {
      BackoffClosedForm(k - 1);
      if InitialDelay * Pow2(k - 1) >= MaxDelay {
        assert InitialDelay * Pow2(k) == 2 * (InitialDelay * Pow2(k - 1));
      }
    }
  }

  /** Time spent sleeping before the k-th poll (status polls themselves take no time in this model). */
  function Elapsed(k: nat): (t: nat)
    ensures t >= InitialDelay * (if k == 0 then 0 else 1)
  {
    if k == 0 then 0 else Elapsed(k - 1) + Backoff(k - 1)
  }

  /** From the third poll on, every delay is the 20 s cap. */
  lemma {:induction false} ElapsedClosedForm(k: nat)
    requires k >= 2
    ensures Elapsed(k) == 20000 * k - 25000
  {
    if k > 2 {
      ElapsedClosedForm(k - 1);
      assert Backoff(k - 1) == MaxDelay by {
        assert Backoff(1) == 10000;
        if k - 1 > 2 {
          assert Backoff(k - 2) >= 10000 by { BackoffGrows(k - 2); }
        }
      }
    }
  }

  lemma BackoffGrows(k: nat)
    requires k >= 1
    ensures Backoff(k) >= 10000
  {
  }

  datatype WaitOutcome = Ready | WaitFailed(error: GraphError)

  /** What one status poll decides: FINISHED, ERROR and a failed poll end the wait; any other status lets it go on. */
  function Verdict(p: Probe): Option<WaitOutcome> {
    match p
    case ProbeFailed => Some(WaitFailed(StatusCheckFailed))
    case Status(Finished) => Some(Ready)
    case Status(Error) => Some(WaitFailed(ResponseNotDefined))
    case Status(OtherStatus(_)) => None
  }

  /**
   * `_waitForContainerPublishReady` from the k-th poll on: the outcome and the
   * number of polls made. FINISHED ends the wait, ERROR or a failed poll fails
   * it, and once 5 minutes of sleeping have passed it times out.
   */
  function WaitFrom(probe: nat -> Probe, k: nat): (r: (WaitOutcome, nat))
    ensures r.1 >= k
    // Every poll is made before the deadline, and every poll but the last lets the wait go on.
    ensures forall j :: k <= j < r.1 ==> Elapsed(j) < MaxElapsedTime
    ensures forall j :: k <= j < r.1 - 1 ==> Verdict(probe(j)).None?
    // A timeout comes after no poll decided anything; any other outcome is what the last poll decided.
    ensures r.0 == WaitFailed(MaxElapsedTimeReached) ==>
      Elapsed(r.1) >= MaxElapsedTime && forall j :: k <= j < r.1 ==> Verdict(probe(j)).None?
    ensures r.0 != WaitFailed(MaxElapsedTimeReached) ==> r.1 >= k + 1 && Verdict(probe(r.1 - 1)) == Some(r.0)
    ensures r.0 == Ready ==> probe(r.1 - 1) == Status(Finished)
    decreases MaxElapsedTime - Elapsed(k)
  {
    if Elapsed(k) >= MaxElapsedTime then (WaitFailed(MaxElapsedTimeReached), k)
    else
      match probe(k)
      case ProbeFailed => (WaitFailed(StatusCheckFailed), k + 1)
      case Status(Finished) => (Ready, k + 1)
      case Status(Error) => (WaitFailed(ResponseNotDefined), k + 1)
      case Status(OtherStatus(_)) => WaitFrom(probe, k + 1)
  }

  lemma {:induction false} ElapsedMonotone(i: nat, j: nat)
    requires i <= j
    ensures Elapsed(i) <= Elapsed(j)
    decreases j - i
  {
    if i < j {
      ElapsedMonotone(i, j - 1);
    }
  }

  /**
   * The first poll that decides something ends the wait with its verdict,
   * provided it comes before the deadline: FINISHED gives Ready at once,
   * ERROR and a failed poll give their failure.
   */
  lemma {:induction false} FirstVerdictDecides(probe: nat -> Probe, k: nat, j: nat)
    requires k <= j && Elapsed(j) < MaxElapsedTime && Verdict(probe(j)).Some?
    requires forall i :: k <= i < j ==> Verdict(probe(i)).None?
    ensures WaitFrom(probe, k) == (Verdict(probe(j)).value, j + 1)
    decreases j - k
  {
    ElapsedMonotone(k, j);
    if k < j {
      FirstVerdictDecides(probe, k + 1, j);
    }
  }

  /** The wait never polls more than 17 times: the 18th poll would come after 315 s of sleeping. */
  lemma {:induction false} PollsBounded(probe: nat -> Probe, k: nat)
    requires k <= 17
    ensures WaitFrom(probe, k).1 <= 17
    decreases 17 - k
  {
    if k < 2 {
      PollsBounded(probe, k + 1);
    } else {
      ElapsedClosedForm(k);
      if k < 17 {
        PollsBounded(probe, k + 1);
      }
    }
  }

  /** A container that stays IN_PROGRESS times the wait out after exactly 17 polls. */
  lemma {:induction false} InProgressTimesOut(probe: nat -> Probe, k: nat)
    requires forall j :: probe(j) == Status(OtherStatus("IN_PROGRESS"))
    requires k <= 17
    ensures WaitFrom(probe, k) == (WaitFailed(MaxElapsedTimeReached), 17)
    decreases 17 - k
  {
    if k < 2 {
      InProgressTimesOut(probe, k + 1);
    } else {
      ElapsedClosedForm(k);
      if k < 17 {
        InProgressTimesOut(probe, k + 1);
      }
    }
  }

  /** The poll loop, proved to behave as WaitFrom from the first poll. */
  method WaitForContainerPublishReady(probe: nat -> Probe) returns (r: WaitOutcome, polls: nat)
    ensures (r, polls) == WaitFrom(probe, 0)
  {
    var elapsed := 0;
    var currentDelay := InitialDelay;
    polls := 0;
    while elapsed < MaxElapsedTime
      invariant elapsed == Elapsed(polls) && currentDelay == Backoff(polls)
      invariant WaitFrom(probe, polls) == WaitFrom(probe, 0)
      decreases MaxElapsedTime - elapsed
    {
      var answer := probe(polls);
      polls := polls + 1;
      match answer {
        case ProbeFailed =>
          r := WaitFailed(StatusCheckFailed);
          return;
        case Status(Finished) =>
          r := Ready;
          return;
        case Status(Error) =>
          r := WaitFailed(ResponseNotDefined);
          return;
        case Status(OtherStatus(_)) =>
      }
      elapsed := elapsed + currentDelay;
      currentDelay := Min(currentDelay * 2, MaxDelay);
    }
    r := WaitFailed(MaxElapsedTimeReached);
  }

  function StatusChecks(container: string, n: nat): (r: seq<Request>)
    ensures |r| == n && forall j :: 0 <= j < n ==> r[j] == CheckStatus(container, j)
  {
    seq(n, j requires 0 <= j < n => CheckStatus(container, j))
  }

  /**
   * Create a container, wait until it is ready, publish it: the outcome and
   * the requests sent. Publication is requested only after the wait saw
   * FINISHED.
   */
  function PublishFlow(token: string, p: PostParams, provider: Provider)
    : (f: (Result<Option<string>, GraphError>, seq<Request>))
    ensures BuildMediaData(token, p).Err? ==> f == (Err(BuildMediaData(token, p).error), [])
    ensures BuildMediaData(token, p).Ok? ==> |f.1| >= 1 && f.1[0] == CreateContainer(BuildMediaData(token, p).value)
    ensures f.0.Ok? ==> |f.1| >= 2 && f.1[|f.1| - 1].PublishContainer?
    // Success exactly when the body builds, the container is created, its wait ends Ready and the publication answers.
    ensures f.0.Ok? <==>
      && BuildMediaData(token, p).Ok?
      && provider.create(BuildMediaData(token, p).value).Some?
      && WaitFrom((k: nat) => provider.probe(provider.create(BuildMediaData(token, p).value).value, k), 0).0 == Ready
      && provider.publish(provider.create(BuildMediaData(token, p).value).value).PublishedAs?
    ensures f.0.Ok? ==> f.0.value == provider.publish(provider.create(BuildMediaData(token, p).value).value).id
  {
    var d := BuildMediaData(token, p);
    if d.Err? then (Err(d.error), [])
    else
      match provider.create(d.value)
      case None => (Err(ContainerCreationFailed), [CreateContainer(d.value)])
      case Some(id) =>
        var w := WaitFrom((k: nat) => provider.probe(id, k), 0);
        var polled := [CreateContainer(d.value)] + StatusChecks(id, w.1);
        if w.0.WaitFailed? then (Err(w.0.error), polled)
        else
          (match provider.publish(id)
           case PublishedAs(pid) => Ok(pid)
           case PublishFailed => Err(PublicationFailed),
           polled + [PublishContainer(id)])
  }

  /** The steps of the posting calls, proved to send the requests PublishFlow describes. */
  method CreateWaitPublish(token: string, p: PostParams, provider: Provider)
    returns (r: Result<Option<string>, GraphError>, requests: seq<Request>)
    ensures (r, requests) == PublishFlow(token, p, provider)
  {
    var d := BuildMediaData(token, p);
    if d.Err? {
      return Err(d.error), [];
    }
    requests := [CreateContainer(d.value)];
    var created := provider.create(d.value);
    if created.None? {
      return Err(ContainerCreationFailed), requests;
    }
    var id := created.value;
    var w, polls := WaitForContainerPublishReady((k: nat) => provider.probe(id, k));
    requests := requests + StatusChecks(id, polls);
    if w.WaitFailed? {
      return Err(w.error), requests;
    }
    requests := requests + [PublishContainer(id)];
    match provider.publish(id)
    case PublishedAs(pid) => r := Ok(pid);
    case PublishFailed => r := Err(PublicationFailed);
  }

  /**
   * A publication request is the last request, and is sent only for the
   * container just created, once its wait saw FINISHED.
   */
  lemma PublishOnlyWhenReady(token: string, p: PostParams, provider: Provider, j: nat)
    requires j < |PublishFlow(token, p, provider).1| && PublishFlow(token, p, provider).1[j].PublishContainer?
    ensures var f := PublishFlow(token, p, provider);
      && j == |f.1| - 1
      && BuildMediaData(token, p).Ok?
      && provider.create(BuildMediaData(token, p).value) == Some(f.1[j].container)
      && WaitFrom((k: nat) => provider.probe(f.1[j].container, k), 0).0 == Ready
      && (f.0.Ok? || f.0 == Err(PublicationFailed))
  {
    var d := BuildMediaData(token, p);
    if d.Err? {
      assert false;
    } else {
      match provider.create(d.value) {
        case None =>
          assert false;
        case Some(id) =>
          var w := WaitFrom((k: nat) => provider.probe(id, k), 0);
          var polled := [CreateContainer(d.value)] + StatusChecks(id, w.1);
          if w.0.WaitFailed? {
            assert false;
          } else {
            assert PublishFlow(token, p, provider).1 == polled + [PublishContainer(id)];
            if j < |polled| {
              assert false;
            }
          }
      }
    }
  }

  /** `postPhotoToInsta`: never throws; success carries the published id, or '' when there is none. */
  method PostPhotoToInsta(token: string, imageUrl: Option<string>, caption: Option<string>, tags: Option<seq<string>>,
                          userNamesToTag: Option<seq<string>>, provider: Provider)
    returns (r: Outcome, requests: seq<Request>)
    ensures !Truthy(imageUrl) ==> r == Failure(None) && requests == []
    ensures Truthy(imageUrl) ==>
      var f := PublishFlow(token, PostParams(SinglePost, imageUrl, caption, tags, userNamesToTag, None), provider);
      requests == f.1 && r == (if f.0.Ok? then Success(f.0.value.GetOr("")) else Failure(None))
    ensures r.Failure? ==> r.error.None?
    ensures r.Success? ==> |requests| >= 2 && requests[0].CreateContainer? && requests[|requests| - 1].PublishContainer?
    ensures r.Success? ==> requests[0].data.caption == Some(FormatCaption(caption, tags)) && requests[0].data.isCarouselItem == Some(false)
  {
    if !Truthy(imageUrl) {
      return Failure(None), [];
    }
    var p := PostParams(SinglePost, imageUrl, caption, tags, userNamesToTag, None);
    MediaDataFields(token, p);
    var published;
    published, requests := CreateWaitPublish(token, p, provider);
    match published
    case Ok(pid) => r := Success(pid.GetOr(""));
    case Err(_) => r := Failure(None);
  }

  /** `postStoryToInsta`: never throws; a failure carries the error that ended the attempt. */
  method PostStoryToInsta(token: string, imageUrl: Option<string>, provider: Provider)
    returns (r: Outcome, requests: seq<Request>)
    ensures !Truthy(imageUrl) ==> r == Failure(Some(NonCarouselImageUrlRequired)) && requests == []
    ensures var f := PublishFlow(token, PostParams(Stories, imageUrl, None, None, None, None), provider);
      requests == f.1 && r == (if f.0.Ok? then Success(f.0.value.GetOr("")) else Failure(Some(f.0.error)))
    ensures r.Failure? ==> r.error.Some?
    ensures r.Success? ==> |requests| >= 2 && requests[0].CreateContainer? && requests[|requests| - 1].PublishContainer?
    ensures r.Success? ==> requests[0].data.mediaType == Some("STORIES") && requests[0].data.caption.None?
  {
    var p := PostParams(Stories, imageUrl, None, None, None, None);
    if Truthy(imageUrl) {
      MediaDataFields(token, p);
    }
    var published;
    published, requests := CreateWaitPublish(token, p, provider);
    match published
    case Ok(pid) => r := Success(pid.GetOr(""));
    case Err(e) => r := Failure(Some(e));
  }

  datatype CarouselPost = CarouselPost(imageUrl: Option<string>, userNamesToTag: Option<seq<string>>)

  function ItemParams(post: CarouselPost): PostParams {
    PostParams(CarouselItem, post.imageUrl, None, None, post.userNamesToTag, None)
  }

  /**
   * `postPhotoCarouselToInsta` as written: more than ten posts throw before
   * any request; otherwise the item containers are created one by one, and
   * building the carousel container then reads an undefined `caption`, so
   * the call always ends in `{success: false}`.
   */
  method PostPhotoCarouselToInsta(token: string, posts: seq<CarouselPost>, provider: Provider)
    returns (r: Result<Outcome, GraphError>, requests: seq<Request>)
    ensures |posts| > MaxCarouselSize ==> r == Err(CarouselTooLarge) && requests == []
    ensures |posts| <= MaxCarouselSize ==> r == Ok(Failure(None))
    ensures |requests| <= |posts|
    ensures forall j :: 0 <= j < |requests| ==> requests[j].CreateContainer? && requests[j].data.isCarouselItem == Some(true)
  {
    if |posts| > MaxCarouselSize {
      return Err(CarouselTooLarge), [];
    }
    requests := [];
    var mediaContainers: seq<string> := [];
    for i := 0 to |posts|
      invariant |requests| == |mediaContainers| == i
      invariant forall j :: 0 <= j < i ==> requests[j].CreateContainer? && requests[j].data.isCarouselItem == Some(true)
    {
      var d := BuildMediaData(token, ItemParams(posts[i]));
      if d.Err? {
        return Ok(Failure(None)), requests;
      }
      MediaDataFields(token, ItemParams(posts[i]));
      requests := requests + [CreateContainer(d.value)];
      var created := provider.create(d.value);
      if created.None? {
        return Ok(Failure(None)), requests;
      }
      mediaContainers := mediaContainers + [created.value];
    }
    // Building `{mediaContainers, caption, location, media_type: "CAROUSEL"}` throws: `caption` is not defined.
    r := Ok(Failure(None));
  }

  /** The container id the provider gives a carousel item, None when its body cannot be built or creation fails. */
  function ItemContainer(token: string, post: CarouselPost, provider: Provider): Option<string> {
    var d := BuildMediaData(token, ItemParams(post));
    if d.Ok? then provider.create(d.value) else None
  }

  /** The carousel container's arguments: the caption and hashtags, and the item containers in order. */
  function CarouselParams(token: string, posts: seq<CarouselPost>, caption: Option<string>, tags: Option<seq<string>>,
                          provider: Provider): PostParams
  {
    PostParams(Carousel, None, caption, tags, None,
               Some(seq(|posts|, j requires 0 <= j < |posts| => ItemContainer(token, posts[j], provider).GetOr(""))))
  }

  /**
   * The carousel call as evidently intended: the caption and hashtags are
   * parameters, and the carousel container lists the item containers in order.
   */
  method PostPhotoCarouselWithCaption(token: string, posts: seq<CarouselPost>, caption: Option<string>,
                                      tags: Option<seq<string>>, provider: Provider)
    returns (r: Result<Outcome, GraphError>, requests: seq<Request>)
    ensures |posts| > MaxCarouselSize ==> r == Err(CarouselTooLarge) && requests == []
    ensures |posts| <= MaxCarouselSize ==> r.Ok?
    ensures |posts| <= MaxCarouselSize && (forall j :: 0 <= j < |posts| ==> ItemContainer(token, posts[j], provider).Some?) ==>
      |requests| > |posts| && requests[|posts|].CreateContainer?
      && requests[|posts|].data.caption == Some(FormatCaption(caption, tags))
      && requests[|posts|].data.children ==
           Some(seq(|posts|, j requires 0 <= j < |posts| => ItemContainer(token, posts[j], provider).GetOr("")))
    ensures r.Ok? && r.value.Success? ==>
      (forall j :: 0 <= j < |posts| ==> ItemContainer(token, posts[j], provider).Some?)
      && requests[|requests| - 1].PublishContainer?
    // Once every item is created, the carousel succeeds exactly when its own create, wait and publish do.
    ensures |posts| <= MaxCarouselSize && (forall j :: 0 <= j < |posts| ==> ItemContainer(token, posts[j], provider).Some?) ==>
      var f := PublishFlow(token, CarouselParams(token, posts, caption, tags, provider), provider);
      && |requests| == |posts| + |f.1|
      && (forall j :: 0 <= j < |posts| ==> requests[j] == CreateContainer(BuildMediaData(token, ItemParams(posts[j])).value))
      && requests[|posts|..] == f.1
      && r == Ok(if f.0.Ok? then Success(f.0.value.GetOr("")) else Failure(None))
  {
    if |posts| > MaxCarouselSize {
      return Err(CarouselTooLarge), [];
    }
    requests := [];
    var mediaContainers: seq<string> := [];
    for i := 0 to |posts|
      invariant |requests| == |mediaContainers| == i
      invariant forall j :: 0 <= j < i ==> ItemContainer(token, posts[j], provider) == Some(mediaContainers[j])
      invariant forall j :: 0 <= j < i ==>
        BuildMediaData(token, ItemParams(posts[j])).Ok? && requests[j] == CreateContainer(BuildMediaData(token, ItemParams(posts[j])).value)
    {
      var d := BuildMediaData(token, ItemParams(posts[i]));
      if d.Err? {
        return Ok(Failure(None)), requests;
      }
      requests := requests + [CreateContainer(d.value)];
      var created := provider.create(d.value);
      if created.None? {
        return Ok(Failure(None)), requests;
      }
      mediaContainers := mediaContainers + [created.value];
    }
    var p := PostParams(Carousel, None, caption, tags, None, Some(mediaContainers));
    MediaDataFields(token, p);
    var published, more := CreateWaitPublish(token, p, provider);
    assert mediaContainers == seq(|posts|, j requires 0 <= j < |posts| => ItemContainer(token, posts[j], provider).GetOr(""));
    assert p == CarouselParams(token, posts, caption, tags, provider);
    ghost var items := requests;
    requests := requests + more;
    assert requests[|posts|..] == more && requests[..|posts|] == items;
    match published
    case Ok(pid) => r := Ok(Success(pid.GetOr("")));
    case Err(_) => r := Ok(Failure(None));
  }

  /** A coordinate argument: a number, or a value whose `typeof` is not 'number'. */
  datatype Coordinate = Number(value: real) | NotNumberType

  datatype Place = Place(id: string, name: string)

  datatype LocationLookup = LocationLookup(id: Option<string>, searched: bool)

  /**
   * `_getLocationId`: both coordinates must be numbers and in range before a
   * place search is sent; anything else, or a failed or empty search, gives
   * no id. `search` is the provider's answer (None: the request failed).
   */
  function LocationId(latitude: Coordinate, longitude: Coordinate, search: (real, real) -> Option<seq<Place>>)
    : (r: LocationLookup)
    ensures !(latitude.Number? && longitude.Number?) ==> r == LocationLookup(None, false)
    ensures (latitude.Number? && longitude.Number? &&
             (latitude.value < -90.0 || latitude.value > 90.0 || longitude.value < -180.0 || longitude.value > 180.0))
      ==> r == LocationLookup(None, false)
    ensures r.searched ==> -90.0 <= latitude.value <= 90.0 && -180.0 <= longitude.value <= 180.0
    ensures r.id.Some? ==> r.searched
    ensures r.id.Some? ==> exists ps: seq<Place> :: search(latitude.value, longitude.value) == Some(ps) && |ps| > 0 && r.id.value == ps[0].id
    // Numbers in range are always searched, and the first place found gives the id.
    ensures latitude.Number? && longitude.Number? &&
            -90.0 <= latitude.value <= 90.0 && -180.0 <= longitude.value <= 180.0 ==>
      var found := search(latitude.value, longitude.value);
      r.searched && r.id == (if found.Some? && |found.value| > 0 then Some(found.value[0].id) else None)
  {
    if !(latitude.Number? && longitude.Number?) then LocationLookup(None, false)
    else
      var lat, lon := latitude.value, longitude.value;
      if lat > 90.0 || lat < -90.0 then LocationLookup(None, false)
      else if lon > 180.0 || lon < -180.0 then LocationLookup(None, false)
      else
        match search(lat, lon)
        case Some(ps) => if |ps| > 0 then LocationLookup(Some(ps[0].id), true) else LocationLookup(None, true)
        case None => LocationLookup(None, true)
  }
}
