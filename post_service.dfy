/** PostService: the data shaping done on the fetched records. HTTP requests
    are not modelled; each one is a `Response` given as input. */
module PostService {
  import opened Wrappers
  import opened Text
  import opened Seqs
  import opened Models

  const PostsError := "No se pudieron cargar los posts."
  const PhotosError := "No se pudieron cargar las fotos."
  const AltPhotosError := "No se pudieron cargar las fotos alternas."
  const MergeError := "No se pudo cargar la información de posts."
  const PostError := "No se pudo cargar el post."
  const DetailError := "No se pudo cargar el detalle del post."
  const ActorsError := "No se pudieron cargar los actores."

  // ---------------------------------------------------------------------
  // The TVMaze adapter (written three times in the service, once here)
  // ---------------------------------------------------------------------

  /** A TVMaze show as a `Photo`: the full-size url prefers `original`, the
      thumbnail prefers `medium`; only an ABSENT field falls through to the
      other one, and `''` is the last resort. */
  function ShowToPhoto(item: TvMazeItem): (photo: Photo)
    ensures photo.albumId == 0 && photo.id == item.id && photo.title == item.name
    ensures ImageOriginal(item).Some? ==> photo.url == ImageOriginal(item).value
    ensures ImageOriginal(item).None? && ImageMedium(item).Some? ==> photo.url == ImageMedium(item).value
    ensures ImageMedium(item).Some? ==> photo.thumbnailUrl == ImageMedium(item).value
    ensures ImageMedium(item).None? && ImageOriginal(item).Some? ==> photo.thumbnailUrl == ImageOriginal(item).value
    ensures ImageOriginal(item).None? && ImageMedium(item).None? ==> photo.url == "" && photo.thumbnailUrl == ""
  {
    Photo(
      0, item.id, item.name,
      OrElse(ImageOriginal(item), OrElse(ImageMedium(item), "")),
      OrElse(ImageMedium(item), OrElse(ImageOriginal(item), "")))
  }

  /** `??` is not `||`: a present but empty `original` is kept as the url
      even when a non-empty `medium` exists. */
  lemma PresentEmptyOriginalIsKept(item: TvMazeItem)
    requires ImageOriginal(item) == Some("") && Truthy(ImageMedium(item))
    ensures ShowToPhoto(item).url == "" && ShowToPhoto(item).thumbnailUrl != ""
  {
  }

  // ---------------------------------------------------------------------
  // The merge of posts and photos by id
  // ---------------------------------------------------------------------

  /** Position of the last photo carrying `id`, or -1 when there is none. */
  function LastIndexWithId(photos: seq<Photo>, id: int): (k: int)
    ensures -1 <= k < |photos|
    ensures k >= 0 ==> photos[k].id == id
    ensures forall j :: k < j < |photos| ==> photos[j].id != id
  {
    if photos == [] then -1
    else if photos[|photos| - 1].id == id then |photos| - 1
    else LastIndexWithId(photos[..|photos| - 1], id)
  }

  /** `photoById.get(id)` once every photo has been `set`: the LAST photo
      with that id, or absent. */
  function PhotoFor(photos: seq<Photo>, id: int): (r: Option<Photo>)
    ensures r.None? <==> forall j :: 0 <= j < |photos| ==> photos[j].id != id
    ensures r.Some? ==> r.value in photos && r.value.id == id
  {
    var k := LastIndexWithId(photos, id);
    if k >= 0 then Some(photos[k]) else None
  }

  /** The merged list: one entry per post, in post order. */
  function Merged(posts: seq<Post>, photos: seq<Photo>): (merged: seq<PostWithPhoto>)
    ensures |merged| == |posts|
    ensures forall i :: 0 <= i < |posts| ==> ToPost(merged[i]) == posts[i]
  {
    seq(|posts|, i requires 0 <= i < |posts| => WithPhoto(posts[i], PhotoFor(photos, posts[i].id)))
  }

  /** `Map.get` as an optional value. */
  function Lookup(m: map<int, Photo>, id: int): Option<Photo>
  {
    if id in m then Some(m[id]) else None
  }

  /** The body of the `map` in getPostsWithPhotos: fill `photoById` with a
      `Map.set` per photo, then copy every post and attach its photo. */
  method MergePostsWithPhotos(posts: seq<Post>, photos: seq<Photo>) returns (merged: seq<PostWithPhoto>)
    ensures merged == Merged(posts, photos)
  {
    var photoById: map<int, Photo> := map[];
    for i := 0 to |photos|
      invariant forall id :: Lookup(photoById, id) == PhotoFor(photos[..i], id)
    {
      ghost var prefix := photos[..i + 1];
      assert prefix[..i] == photos[..i] && prefix[i] == photos[i];
      ghost var before := photoById;
      photoById := photoById[photos[i].id := photos[i]];
      forall id
        ensures Lookup(photoById, id) == PhotoFor(prefix, id)
      {
        if id == photos[i].id {
          assert LastIndexWithId(prefix, id) == i;
        } else {
          assert Lookup(photoById, id) == Lookup(before, id) == PhotoFor(photos[..i], id);
          assert LastIndexWithId(prefix, id) == LastIndexWithId(photos[..i], id);
        }
      }
    }
    assert photos[..|photos|] == photos;
    merged := [];
    for i := 0 to |posts|
      invariant |merged| == i
      invariant forall j :: 0 <= j < i ==> merged[j] == WithPhoto(posts[j], PhotoFor(photos, posts[j].id))
    {
      merged := merged + [WithPhoto(posts[i], Lookup(photoById, posts[i].id))];
    }
  }

  /** Every merged entry carries the photo whose id is the post's id, the
      last such photo when several share it, and none when there is none. */
  lemma MergedPhoto(posts: seq<Post>, photos: seq<Photo>, i: nat)
    requires i < |posts|
    ensures var photo := Merged(posts, photos)[i].photo;
      && (photo.None? <==> forall j :: 0 <= j < |photos| ==> photos[j].id != posts[i].id)
      && (photo.Some? ==> exists j :: 0 <= j < |photos| && photo.value == photos[j] && photos[j].id == posts[i].id
                                       && forall k :: j < k < |photos| ==> photos[k].id != posts[i].id)
  {
    var k := LastIndexWithId(photos, posts[i].id);
    if k >= 0 {
      assert Merged(posts, photos)[i].photo.value == photos[k];
    }
  }

  /** A photo appended after others with the same id overrides them
      (`Map.set` overwrites). */
  lemma {:induction false} LastPhotoWins(posts: seq<Post>, photos: seq<Photo>, last: Photo, i: nat)
    requires i < |posts| && posts[i].id == last.id
    ensures Merged(posts, photos + [last])[i].photo == Some(last)
  {
    assert LastIndexWithId(photos + [last], last.id) == |photos|;
  }

  /** With no photo id matching any post id, no post gets a photo. */
  lemma DisjointIdsGiveNoPhotos(posts: seq<Post>, photos: seq<Photo>)
    requires forall i, j :: 0 <= i < |posts| && 0 <= j < |photos| ==> posts[i].id != photos[j].id
    ensures forall i :: 0 <= i < |posts| ==> Merged(posts, photos)[i].photo.None?
  {
  }

  /** When every post id has a photo, every post gets one. */
  lemma CoveredIdsGivePhotos(posts: seq<Post>, photos: seq<Photo>)
    requires forall i :: 0 <= i < |posts| ==> exists j :: 0 <= j < |photos| && photos[j].id == posts[i].id
    ensures forall i :: 0 <= i < |posts| ==> Merged(posts, photos)[i].photo.Some?
  {
    forall i | 0 <= i < |posts|
      ensures Merged(posts, photos)[i].photo.Some?
    {
      MergedPhoto(posts, photos, i);
    }
  }

  // ---------------------------------------------------------------------
  // The observables, with HTTP outcomes as inputs
  // ---------------------------------------------------------------------

  /** getPosts. */
  function GetPosts(response: Response<seq<Post>>): (r: Result<seq<Post>>)
    ensures r.Ok? <==> response.Received?
    ensures r.Ok? ==> r.value == response.body
    ensures r.Err? ==> r.message == PostsError
  {
    match response
    case Received(posts) => Ok(posts)
    case Failed => Err(PostsError)
  }

  /** getPhotos. */
  function GetPhotos(response: Response<seq<Photo>>): (r: Result<seq<Photo>>)
    ensures r.Ok? <==> response.Received?
    ensures r.Ok? ==> r.value == response.body
    ensures r.Err? ==> r.message == PhotosError
  {
    match response
    case Received(photos) => Ok(photos)
    case Failed => Err(PhotosError)
  }

  /** getAltPhotos: every TVMaze show adapted, in order. */
  function GetAltPhotos(response: Response<seq<TvMazeItem>>): (r: Result<seq<Photo>>)
    ensures r.Ok? <==> response.Received?
    ensures r.Ok? ==> |r.value| == |response.body|
    ensures r.Ok? ==> forall i :: 0 <= i < |r.value| ==> r.value[i] == ShowToPhoto(response.body[i])
    ensures r.Err? ==> r.message == AltPhotosError
  {
    match response
    case Received(items) => Ok(seq(|items|, i requires 0 <= i < |items| => ShowToPhoto(items[i])))
    case Failed => Err(AltPhotosError)
  }

  /** getPostsWithPhotos: both lists or nothing. `useAltPhotoApi` picks the
      photo source; any failure becomes the one merge message. */
  function GetPostsWithPhotos(
    useAltPhotoApi: bool, posts: Response<seq<Post>>,
    photos: Response<seq<Photo>>, shows: Response<seq<TvMazeItem>>): (r: Result<seq<PostWithPhoto>>)
    ensures r.Ok? <==> posts.Received? && (if useAltPhotoApi then shows.Received? else photos.Received?)
    ensures r.Err? ==> r.message == MergeError
    ensures r.Ok? ==> r.value == Merged(posts.body, (if useAltPhotoApi then GetAltPhotos(shows) else GetPhotos(photos)).value)
  {
    var source := if useAltPhotoApi then GetAltPhotos(shows) else GetPhotos(photos);
    match (GetPosts(posts), source)
    case (Ok(ps), Ok(fs)) => Ok(Merged(ps, fs))
    case _ => Err(MergeError)
  }

  /** getPostById. */
  function GetPostById(response: Response<Post>): (r: Result<Post>)
    ensures r.Ok? <==> response.Received?
    ensures r.Ok? ==> r.value == response.body
    ensures r.Err? ==> r.message == PostError
  {
    match response
    case Received(post) => Ok(post)
    case Failed => Err(PostError)
  }

  /** getPhotoById: a failure or timeout is no photo, never an error. */
  function GetPhotoById(useAltPhotoApi: bool, show: Response<TvMazeItem>, photo: Response<Photo>): (r: Option<Photo>)
    ensures useAltPhotoApi ==> (r.Some? <==> show.Received?) && (r.Some? ==> r.value == ShowToPhoto(show.body))
    ensures !useAltPhotoApi ==> (r.Some? <==> photo.Received?) && (r.Some? ==> r.value == photo.body)
  {
    if useAltPhotoApi then
      (match show case Received(item) => Some(ShowToPhoto(item)) case Failed => None)
    else
      (match photo case Received(p) => Some(p) case Failed => None)
  }

  /** getPostWithPhoto: the post is required, the photo optional. */
  function GetPostWithPhoto(
    useAltPhotoApi: bool, post: Response<Post>,
    show: Response<TvMazeItem>, photo: Response<Photo>): (r: Result<PostWithPhoto>)
    ensures r.Ok? <==> post.Received?
    ensures r.Err? ==> r.message == DetailError
    ensures r.Ok? ==> ToPost(r.value) == post.body
    ensures r.Ok? ==> r.value.photo == GetPhotoById(useAltPhotoApi, show, photo)
  {
    match post
    case Received(p) => Ok(WithPhoto(p, GetPhotoById(useAltPhotoApi, show, photo)))
    case Failed => Err(DetailError)
  }

  /** A failed or late photo never fails the detail. */
  lemma PhotoFailureDegrades(useAltPhotoApi: bool, post: Post, show: Response<TvMazeItem>, photo: Response<Photo>)
    requires if useAltPhotoApi then show.Failed? else photo.Failed?
    ensures GetPostWithPhoto(useAltPhotoApi, Received(post), show, photo) == Ok(WithPhoto(post, None))
  {
  }

  // ---------------------------------------------------------------------
  // Actors
  // ---------------------------------------------------------------------

  /** The filter of getActors: `Boolean(item.image?.medium || item.image?.original)`. */
  predicate HasImage(item: TvMazeItem)
  {
    Truthy(ImageMedium(item)) || Truthy(ImageOriginal(item))
  }

  /** The card of one person: the medium image unless it is absent. */
  function ToActor(item: TvMazeItem): (a: Actor)
    ensures a.id == item.id && a.name == item.name
    ensures ImageMedium(item).Some? ==> a.imageUrl == ImageMedium(item).value
    ensures ImageMedium(item).None? ==> a.imageUrl == OrElse(ImageOriginal(item), "")
    ensures HasImage(item) && ImageMedium(item) != Some("") ==> a.imageUrl != ""
  {
    Actor(item.id, item.name, OrElse(ImageMedium(item), OrElse(ImageOriginal(item), "")))
  }

  /** The `filter` then `map` of getActors. */
  function ToActors(items: seq<TvMazeItem>): seq<Actor>
  {
    MapToActor(Filter(items, HasImage))
  }

  /** `.map(toActor)`. */
  function MapToActor(kept: seq<TvMazeItem>): seq<Actor>
  {
    if kept == [] then [] else [ToActor(kept[0])] + MapToActor(kept[1..])
  }

  /** The map makes one card per person, in place. */
  lemma {:induction false} MapToActorAt(kept: seq<TvMazeItem>)
    ensures |MapToActor(kept)| == |kept|
    ensures forall i :: 0 <= i < |kept| ==> MapToActor(kept)[i] == ToActor(kept[i])
  {
    if kept != [] {
      MapToActorAt(kept[1..]);
    }
  }

  /** At most one card per person, each made from a person with an image. */
  lemma ToActorsFromItems(items: seq<TvMazeItem>)
    ensures |ToActors(items)| <= |items|
    ensures forall i :: 0 <= i < |ToActors(items)| ==>
      exists j :: 0 <= j < |items| && HasImage(items[j]) && ToActors(items)[i] == ToActor(items[j])
  {
    var kept := Filter(items, HasImage);
    MapToActorAt(kept);
    forall i | 0 <= i < |ToActors(items)|
      ensures exists j :: 0 <= j < |items| && HasImage(items[j]) && ToActors(items)[i] == ToActor(items[j])
    {
      assert kept[i] in items;
    }
  }

  /** ToActors keeps the order: it maps a concatenation to the
      concatenation of the parts. */
  lemma ToActorsAppend(a: seq<TvMazeItem>, b: seq<TvMazeItem>)
    ensures ToActors(a + b) == ToActors(a) + ToActors(b)
  {
    FilterAppend(a, b, HasImage);
    MapToActorAppend(Filter(a, HasImage), Filter(b, HasImage));
  }

  lemma {:induction false} MapToActorAppend(a: seq<TvMazeItem>, b: seq<TvMazeItem>)
    ensures MapToActor(a + b) == MapToActor(a) + MapToActor(b)
  {
    if a == [] {
      assert a + b == b;
    } else {
      assert (a + b)[0] == a[0];
      assert (a + b)[1..] == a[1..] + b;
      MapToActorAppend(a[1..], b);
      AppendAssoc([ToActor(a[0])], MapToActor(a[1..]), MapToActor(b));
    }
  }

  /** The single-item case of ToActors. */
  lemma ToActorsSingle(item: TvMazeItem)
    ensures ToActors([item]) == if HasImage(item) then [ToActor(item)] else []
  {
    assert [item][1..] == [];
    var kept := Filter([item], HasImage);
    assert kept == if HasImage(item) then [item] else [];
    if HasImage(item) {
      assert kept[1..] == [];
      assert MapToActor(kept) == [ToActor(item)] + MapToActor([]);
    }
  }

  /** A person whose `medium` is `''` but whose `original` is set passes the
      filter yet gets an empty image url, since `??` only skips absent values. */
  lemma EmptyMediumGivesEmptyActorImage(original: string)
    requires original != ""
    ensures var item := TvMazeItem(1, "n", Some(TvMazeImage(Some(original), Some(""))));
      HasImage(item) && ToActors([item]) == [Actor(1, "n", "")]
  {
    ToActorsSingle(TvMazeItem(1, "n", Some(TvMazeImage(Some(original), Some("")))));
  }

  /** getActors. */
  function GetActors(response: Response<seq<TvMazeItem>>): (r: Result<seq<Actor>>)
    ensures r.Ok? <==> response.Received?
    ensures r.Ok? ==> r.value == ToActors(response.body)
    ensures r.Err? ==> r.message == ActorsError
  {
    match response
    case Received(items) => Ok(ToActors(items))
    case Failed => Err(ActorsError)
  }
}
