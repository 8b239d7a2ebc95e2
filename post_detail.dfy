/** PostDetailComponent: one post, its photo and up to six related posts.
    Every asynchronous step is a method the environment calls: the route
    parameter arriving, the six-second soft timeout firing, each answer of
    the post service, and the request's `finalize`. The requests the
    component sends are recorded so that the model can say which it sends. */
module PostDetail {
  import opened Wrappers
  import opened Seqs
  import opened Models

  const NotFoundMessage := "No se encontró el post solicitado."
  const SlowMessage := "La respuesta está tardando demasiado."
  const RelatedCount: nat := 6

  /** A call the component makes to the post service. */
  datatype Request =
    | PostRequest(id: int)                        // getPostById(id)
    | PhotoRequest(id: int)                       // getPhotoById(id)
    | RelatedRequest(userId: int, currentId: int) // getPostsWithPhotos(), for loadRelatedPosts

  /** Same author, another post. */
  predicate IsRelated(p: PostWithPhoto, userId: int, currentId: int)
  {
    p.userId == userId && p.id != currentId
  }

  /** `posts.filter(same user, other id)`. */
  function AllRelated(posts: seq<PostWithPhoto>, userId: int, currentId: int): seq<PostWithPhoto>
  {
    Filter(posts, p => IsRelated(p, userId, currentId))
  }

  /** `posts.filter(same user, other id).slice(0, 6)`. */
  function RelatedPosts(posts: seq<PostWithPhoto>, userId: int, currentId: int): (r: seq<PostWithPhoto>)
    ensures |r| == if |AllRelated(posts, userId, currentId)| < RelatedCount
                   then |AllRelated(posts, userId, currentId)| else RelatedCount
    ensures r == AllRelated(posts, userId, currentId)[..|r|]
    ensures forall p :: p in r ==> p in posts && IsRelated(p, userId, currentId)
    ensures |r| < RelatedCount ==> forall p :: p in posts && IsRelated(p, userId, currentId) ==> p in r
    ensures multiset(r) <= multiset(posts)
  {
    var all := AllRelated(posts, userId, currentId);
    var r := Take(all, RelatedCount);
    assert |r| < RelatedCount ==> r == all;
    assert all == r + all[|r|..];
    r
  }

  /** The related posts keep the list's order: those of a prefix come
      before those of the rest. */
  lemma AllRelatedAppend(a: seq<PostWithPhoto>, b: seq<PostWithPhoto>, userId: int, currentId: int)
    ensures AllRelated(a + b, userId, currentId) == AllRelated(a, userId, currentId) + AllRelated(b, userId, currentId)
  {
    FilterAppend(a, b, p => IsRelated(p, userId, currentId));
  }

  /** Once the first part of the list holds six related posts, the rest is
      never looked at: the related posts are the first six. */
  lemma RelatedPostsAreFirstSix(a: seq<PostWithPhoto>, b: seq<PostWithPhoto>, userId: int, currentId: int)
    requires |AllRelated(a, userId, currentId)| >= RelatedCount
    ensures RelatedPosts(a + b, userId, currentId) == RelatedPosts(a, userId, currentId)
  {
    AllRelatedAppend(a, b, userId, currentId);
    var all := AllRelated(a + b, userId, currentId);
    var first := AllRelated(a, userId, currentId);
    assert all[..RelatedCount] == first[..RelatedCount];
  }

  class PostDetailComponent {
    var post: Option<PostWithPhoto>
    var relatedPosts: seq<PostWithPhoto>
    var loading: bool
    var errorMessage: string
    /** A soft timeout is scheduled and has neither fired nor been cleared. */
    var timerPending: bool
    /** Every call made to the post service, oldest first. */
    var requests: seq<Request>

    /** The component shows the spinner exactly while the soft timeout is
        armed: both start in loadPost and both end at the first of the
        timeout and `finalize`. */
    predicate Valid()
      reads this
    {
      loading == timerPending
    }

    constructor ()
      ensures Valid()
      ensures post == None && relatedPosts == [] && !loading && errorMessage == ""
      ensures !timerPending && requests == []
    {
      post := None;
      relatedPosts := [];
      loading := false;
      errorMessage := "";
      timerPending := false;
      requests := [];
    }

    /** The paramMap subscription. `id` is `Number(params.get('id'))`,
        None standing for NaN; 0 and NaN are falsy and mean "not found". */
    method OnRouteParam(id: Option<int>)
      requires Valid()
      modifies this`errorMessage, this`loading, this`timerPending, this`requests
      ensures Valid()
      ensures (id.None? || id.value == 0) ==>
        && errorMessage == NotFoundMessage && requests == old(requests)
        && loading == old(loading) && timerPending == old(timerPending)
      ensures id.Some? && id.value != 0 ==>
        && loading && timerPending && errorMessage == ""
        && requests == old(requests) + [PostRequest(id.value)]
    {
      if id.None? || id.value == 0 {
        errorMessage := NotFoundMessage;
        return;
      }
      LoadPost(id.value);
    }

    /** loadPost: spinner on, message cleared, the previous soft timeout
        replaced by a new one, the post requested. */
    method LoadPost(id: int)
      modifies this`errorMessage, this`loading, this`timerPending, this`requests
      ensures Valid()
      ensures loading && timerPending && errorMessage == ""
      ensures requests == old(requests) + [PostRequest(id)]
    {
      loading := true;
      errorMessage := "";
      timerPending := true;
      requests := requests + [PostRequest(id)];
    }

    /** The soft timeout's callback: if still loading, stop the spinner and
        say the answer is slow. A cleared timeout never fires. */
    method SoftTimeoutFires()
      requires Valid()
      modifies this`errorMessage, this`loading, this`timerPending
      ensures Valid() && !loading && !timerPending
      ensures old(timerPending) ==> errorMessage == SlowMessage
      ensures !old(timerPending) ==> errorMessage == old(errorMessage)
    {
      if !timerPending {
        return;
      }
      timerPending := false;
      if loading {
        loading := false;
        errorMessage := SlowMessage;
      }
    }

    /** The `next` handler of loadPost: the post, without a photo, and the
        photo and related-post requests. The error message is left as it is. */
    method OnPostReceived(p: Post)
      modifies this`post, this`requests
      ensures post == Some(WithPhoto(p, None))
      ensures requests == old(requests) + [PhotoRequest(p.id), RelatedRequest(p.userId, p.id)]
    {
      post := Some(WithPhoto(p, None));
      requests := requests + [PhotoRequest(p.id), RelatedRequest(p.userId, p.id)];
    }

    /** The `error` handler of loadPost. */
    method OnPostFailed(message: string)
      modifies this`errorMessage
      ensures errorMessage == message
    {
      errorMessage := message;
    }

    /** loadPost's `finalize`: spinner off, soft timeout cleared. */
    method Finalize()
      modifies this`loading, this`timerPending
      ensures Valid() && !loading && !timerPending
    {
      loading := false;
      timerPending := false;
    }

    /** loadPhoto's `next` handler: attach the photo to the post shown, if
        there are both. */
    method OnPhotoReceived(photo: Option<Photo>)
      modifies this`post
      ensures old(post).Some? && photo.Some? ==> post == Some(old(post).value.(photo := photo))
      ensures old(post).None? || photo.None? ==> post == old(post)
    {
      if post.Some? && photo.Some? {
        post := Some(post.value.(photo := photo));
      }
    }

    /** loadRelatedPosts' handlers. */
    method OnRelatedReceived(userId: int, currentId: int, result: Result<seq<PostWithPhoto>>)
      modifies this`relatedPosts
      ensures result.Ok? ==> relatedPosts == RelatedPosts(result.value, userId, currentId)
      ensures result.Err? ==> relatedPosts == []
    {
      match result
      case Ok(posts) =>
        relatedPosts := RelatedPosts(posts, userId, currentId);
      case Err(_) =>
        relatedPosts := [];
    }
  }

  /** A post whose answer arrives after the soft timeout is shown together
      with the "slow" message: nothing on the success path clears it. */
  method LateAnswerKeepsSlowMessage(id: int, p: Post) returns (shown: Option<PostWithPhoto>, message: string, spinner: bool)
    requires id != 0
    ensures shown == Some(WithPhoto(p, None))
    ensures message == SlowMessage
    ensures !spinner
  {
    var c := new PostDetailComponent();
    c.OnRouteParam(Some(id));
    c.SoftTimeoutFires();
    c.OnPostReceived(p);
    c.Finalize();
    shown, message, spinner := c.post, c.errorMessage, c.loading;
  }

  /** An answer in time leaves no message and no spinner, and asks for the
      photo and the related posts of the post received. */
  method TimelyAnswer(id: int, p: Post) returns (shown: Option<PostWithPhoto>, message: string, spinner: bool, sent: seq<Request>)
    requires id != 0
    ensures shown == Some(WithPhoto(p, None))
    ensures message == "" && !spinner
    ensures sent == [PostRequest(id), PhotoRequest(p.id), RelatedRequest(p.userId, p.id)]
  {
    var c := new PostDetailComponent();
    c.OnRouteParam(Some(id));
    c.OnPostReceived(p);
    c.Finalize();
    c.SoftTimeoutFires();
    shown, message, spinner, sent := c.post, c.errorMessage, c.loading, c.requests;
  }

  /** A falsy route id sends nothing and shows the not-found message. */
  method MissingIdSendsNothing(id: Option<int>) returns (message: string, spinner: bool, sent: seq<Request>)
    requires id.None? || id.value == 0
    ensures message == NotFoundMessage && !spinner && sent == []
  {
    var c := new PostDetailComponent();
    c.OnRouteParam(id);
    message, spinner, sent := c.errorMessage, c.loading, c.requests;
  }
}
