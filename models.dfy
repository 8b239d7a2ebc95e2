/** The records the components exchange. */
module Models {
  import opened Wrappers

  /** A post of the JSONPlaceholder API. */
  datatype Post = Post(id: int, userId: int, title: string, body: string)

  /** A photo record; TVMaze shows are adapted into this shape. */
  datatype Photo = Photo(albumId: int, id: int, title: string, url: string, thumbnailUrl: string)

  /** A post with every field of `Post` and the photo sharing its id, if any. */
  datatype PostWithPhoto = PostWithPhoto(id: int, userId: int, title: string, body: string, photo: Option<Photo>)

  /** A cast member card. */
  datatype Actor = Actor(id: int, name: string, imageUrl: string)

  /** The optional `image` object of a TVMaze show or person. */
  datatype TvMazeImage = TvMazeImage(original: Option<string>, medium: Option<string>)

  /** A TVMaze show or person: `{ id, name, image? }`. */
  datatype TvMazeItem = TvMazeItem(id: int, name: string, image: Option<TvMazeImage>)

  /** `{ ...post, photo }`. */
  function WithPhoto(post: Post, photo: Option<Photo>): (r: PostWithPhoto)
    ensures ToPost(r) == post && r.photo == photo
  {
    PostWithPhoto(post.id, post.userId, post.title, post.body, photo)
  }

  /** The `Post` fields of a merged record. */
  function ToPost(p: PostWithPhoto): Post
  {
    Post(p.id, p.userId, p.title, p.body)
  }

  /** `post.photo?.url`. */
  function PhotoUrl(p: PostWithPhoto): Option<string>
  {
    if p.photo.Some? then Some(p.photo.value.url) else None
  }

  /** `post.photo?.thumbnailUrl`. */
  function PhotoThumbnailUrl(p: PostWithPhoto): Option<string>
  {
    if p.photo.Some? then Some(p.photo.value.thumbnailUrl) else None
  }

  /** `item.image?.original`. */
  function ImageOriginal(item: TvMazeItem): Option<string>
  {
    if item.image.Some? then item.image.value.original else None
  }

  /** `item.image?.medium`. */
  function ImageMedium(item: TvMazeItem): Option<string>
  {
    if item.image.Some? then item.image.value.medium else None
  }
}
