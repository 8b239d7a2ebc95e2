# Posts and cinema listing front end, modelled in Dafny

The application is an Angular front end. It lists posts from JSONPlaceholder, each joined with a photo (by default a TVMaze show adapted to the photo shape). It also offers a detail page per post, a strip of actors from TVMaze, and a login/register dialog. This project models the client-side logic that decides what the user sees:

- **Post service** (`PostService`). It turns HTTP outcomes into results and error messages. It joins posts with photos by id, adapts TVMaze records, and filters and maps actors. HTTP outcomes are inputs: `Response<T>` is either `Received(body)` or `Failed`. A timeout counts as a failure.
- **Listing page** (`PostList.PostListComponent`). A class holding the component's fields:
  - the filter rule;
  - three wrap-around page cursors and the windows they show;
  - the responsive carousel size;
  - the hero-image rotation;
  - the load handlers.

  The pure arithmetic of the cursors lives in `Pagination`.
- **Detail page** (`PostDetail.PostDetailComponent`). A class driven by events:
  - the route parameter;
  - the six-second soft timeout;
  - the answers of the service;
  - `finalize`.

  It logs every request it sends.
- **Post card** (`PostCard`):
  - the choice of image (`getImageUrl`, `safeUrl`, `toProxyUrl`);
  - the chain of replacement sources tried when an image fails (`onImageError`), both as written and corrected (see Findings).
- **Auth modal** (`AuthModal`). A state machine over `{open, mode}`, whose BehaviorSubject is modelled by the list of values it has emitted.

Helper modules:

- `Wrappers`: Option, Result and Response.
- `Text`: `startsWith`, `includes`, truthiness, `??`, ASCII `toLowerCase` and `trim`.
- `UriEncoding`: `encodeURIComponent` through UTF-8.
- `Seqs`: `filter` and `slice(0, n)`.
- `Models`: the records.

Randomness and the window width are parameters. Timers are events the caller triggers.

## Model

| member | source | states |
|---|---|---|
| `Text.OrElse` | src/app/features/posts/services/post.service.ts:56-57 | `a ?? b` is the first operand whenever it is present, an empty string included, and the fallback only when it is absent |
| `Text.ToLower` | src/app/features/posts/components/post-list/post-list.component.ts:124 | same length as the input; each character is lowered (ASCII letters move by 32, everything else is kept) |
| `Text.Trim` | src/app/features/posts/components/post-list/post-list.component.ts:124 | the result is a slice of the input that neither starts nor ends with white space; it is empty exactly when the input is all white space |
| `Text.ContainsIffOccurs` | src/app/features/posts/components/post-list/post-list.component.ts:132 | `includes` holds exactly when the pattern starts at some offset of the string |
| `UriEncoding.EncodeUriComponent` | src/app/features/posts/components/post-card/post-card.component.ts:49 | the output is made only of unreserved characters and `%XX` escape characters; it is never shorter than the input, and it equals the input when every character is unreserved |
| `UriEncoding.EncodeAppend` | src/app/features/posts/components/post-card/post-card.component.ts:49 | encoding works character by character: it maps a concatenation to the concatenation of the encodings |
| `UriEncoding.EncodedContainsPlain` | src/app/features/posts/components/post-card/post-card.component.ts:37-41 | for a lower-case host name, occurring in the encoded url is the same as occurring in the url (escapes never produce one, encoding never breaks one) |
| `Seqs.Filter` | src/app/features/posts/components/post-detail/post-detail.component.ts:98-99 | `filter` keeps exactly the elements satisfying the predicate, drops nothing else, and yields a sub-multiset of the input |
| `Seqs.FilterAppend` | src/app/features/posts/services/post.service.ts:159 | filtering preserves order: it maps a concatenation to the concatenation of the filtered parts |
| `Seqs.Take` | src/app/features/posts/components/post-list/post-list.component.ts:157 | `slice(0, n)` has min(n, length) elements, the first ones of the list |
| `Models.WithPhoto` | src/app/features/posts/services/post.service.ts:73-76 | `{ ...post, photo }` keeps every post field and carries the given photo |
| `Pagination.CycleNext` | src/app/features/posts/components/post-list/post-list.component.ts:183 | `(i + 1) % n`: the next index, 0 after the last, always below n |
| `Pagination.CyclePrev` | src/app/features/posts/components/post-list/post-list.component.ts:175 | `(i - 1 + n) % n`: the previous index, the last one before 0, always below n |
| `Pagination.CycleInverse` | src/app/features/posts/components/post-list/post-list.component.ts:174-183 | for an index in range, next then prev, and prev then next, restore it |
| `Pagination.NextTimesFullCycle` | src/app/features/posts/components/post-list/post-list.component.ts:262-268 | n steps forward from any in-range index come back to it (the hero rotation and each cursor are periodic) |
| `Pagination.PageCount` | src/app/features/posts/components/post-list/post-list.component.ts:174 | `Math.ceil(length / size)` is zero exactly for an empty list |
| `Pagination.PageCountIsCeiling` | src/app/features/posts/components/post-list/post-list.component.ts:174 | `Math.ceil(length / size)` pages of `size` hold the list, and one page fewer would not |
| `Pagination.Window` | src/app/features/posts/components/post-list/post-list.component.ts:160-163 | `slice(page*size, page*size+size)`: at most `size` elements, each the list element at the same offset from `page*size`, clipped to the list |
| `Pagination.NextPage` | src/app/features/posts/components/post-list/post-list.component.ts:178-184 | no-op on an empty list, otherwise a page below `ceil(length/size)`; keeps a cursor in range |
| `Pagination.PrevPage` | src/app/features/posts/components/post-list/post-list.component.ts:170-176 | no-op on an empty list, otherwise a page below `ceil(length/size)`; keeps a cursor in range |
| `Pagination.InRangeWindowNonEmpty` | src/app/features/posts/components/post-list/post-list.component.ts:165-168 | on a non-empty list every page a cursor can hold shows at least one element |
| `Pagination.PagesArePrefix` | src/app/features/posts/components/post-list/post-list.component.ts:211-214 | the first k windows shown one after another are the first k*size elements of the list |
| `Pagination.PagesCoverList` | src/app/features/posts/components/post-list/post-list.component.ts:160-163 | paging through all `ceil(length/size)` pages shows the whole list, each element once, in order |
| `PostService.ShowToPhoto` | src/app/features/posts/services/post.service.ts:52-58 | albumId 0, id and title from the show; url is `original`, else `medium`, else `''`; thumbnail is `medium`, else `original`, else `''` |
| `PostService.PresentEmptyOriginalIsKept` | src/app/features/posts/services/post.service.ts:56 | a present but empty `original` is kept as the url even when `medium` is set |
| `PostService.LastIndexWithId` | src/app/features/posts/services/post.service.ts:71 | the position of the last photo with the id, with no later match, or -1 |
| `PostService.PhotoFor` | src/app/features/posts/services/post.service.ts:70-71 | `photoById.get(id)` after all the `set`s: absent exactly when no photo has the id, otherwise a photo of the list with that id |
| `PostService.Merged` | src/app/features/posts/services/post.service.ts:73-76 | one entry per post, in post order, every post field copied |
| `PostService.MergePostsWithPhotos` | src/app/features/posts/services/post.service.ts:69-77 | the map built by the `forEach` loop, then the posts mapped through it, give exactly `Merged` |
| `PostService.MergedPhoto` | src/app/features/posts/services/post.service.ts:75 | each entry's photo is absent exactly when no photo shares the post id, and otherwise is the last photo that does |
| `PostService.LastPhotoWins` | src/app/features/posts/services/post.service.ts:71 | a photo appended after others with the same id is the one attached |
| `PostService.DisjointIdsGiveNoPhotos` | src/app/features/posts/services/post.service.ts:75 | when no photo id matches any post id, no post gets a photo |
| `PostService.CoveredIdsGivePhotos` | src/app/features/posts/services/post.service.ts:75 | when every post id has a photo, every post gets one |
| `PostService.GetPosts` | src/app/features/posts/services/post.service.ts:33-37 | the posts when received, otherwise the posts message |
| `PostService.GetPhotos` | src/app/features/posts/services/post.service.ts:39-43 | the photos when received, otherwise the photos message |
| `PostService.GetAltPhotos` | src/app/features/posts/services/post.service.ts:45-62 | every show adapted, in order, when received; otherwise the alternate-photos message |
| `PostService.GetPostsWithPhotos` | src/app/features/posts/services/post.service.ts:64-82 | succeeds exactly when the posts and the selected photo source both arrive, with the merge of the two; any failure becomes the one merge message |
| `PostService.GetPostById` | src/app/features/posts/services/post.service.ts:84-89 | the post when received, otherwise the post message |
| `PostService.GetPhotoById` | src/app/features/posts/services/post.service.ts:91-113 | the (adapted) photo exactly when the selected request succeeds; a failure is no photo, never an error |
| `PostService.GetPostWithPhoto` | src/app/features/posts/services/post.service.ts:115-149 | succeeds exactly when the post arrives, with its fields and the optional photo; otherwise the detail message |
| `PostService.PhotoFailureDegrades` | src/app/features/posts/services/post.service.ts:129-147 | a failed photo request yields the post without a photo, not an error |
| `PostService.ToActor` | src/app/features/posts/services/post.service.ts:160-164 | id and name copied; image is `medium` unless absent, then `original`, then `''`; non-empty for a kept person whose `medium` is not `''` |
| `PostService.ToActorsFromItems` | src/app/features/posts/services/post.service.ts:157-164 | at most one card per person, each made by `toActor` from a person with a truthy image |
| `PostService.MapToActorAt` | src/app/features/posts/services/post.service.ts:160-164 | the `map` makes one card per person, the card at each position made from the person at that position |
| `PostService.ToActorsAppend` | src/app/features/posts/services/post.service.ts:159-160 | actor cards keep the people's order |
| `PostService.MapToActorAppend` | src/app/features/posts/services/post.service.ts:160 | the `map` turns a concatenation into the concatenation of the card lists |
| `PostService.ToActorsSingle` | src/app/features/posts/services/post.service.ts:159-163 | a person yields one card if it has a truthy image and none otherwise |
| `PostService.EmptyMediumGivesEmptyActorImage` | src/app/features/posts/services/post.service.ts:159-163 | a person with `medium` `''` and a set `original` passes the filter yet gets an empty image url |
| `PostService.GetActors` | src/app/features/posts/services/post.service.ts:151-168 | the cards when received, otherwise the actors message |
| `PostList.FilterPostsKeepsMatches` | src/app/features/posts/components/post-list/post-list.component.ts:131-135 | a post is in the filtered list exactly when it is one of the posts and both the title and the user predicate hold for it |
| `PostList.FilterPostsIsFilter` | src/app/features/posts/components/post-list/post-list.component.ts:131-135 | the filtered list is `posts.filter` with the title-and-user predicate, so it keeps the posts' order (`Seqs.FilterAppend`) |
| `PostList.FilterWithoutSearchKeepsAll` | src/app/features/posts/components/post-list/post-list.component.ts:124-135 | with no field set, the title and user predicates hold vacuously and the filter returns the posts unchanged, in order |
| `PostList.RandomPostsIsSample` | src/app/features/posts/components/post-list/post-list.component.ts:155-158 | taking `count` from a permutation of the posts gives min(count, number of posts) of them, none more often than it occurs among the posts |
| `PostList.FilteredCases` | src/app/features/posts/components/post-list/post-list.component.ts:124-136 | the list applyFilters computes: with no field set every post in order; with any field set min(6, number of posts) posts drawn from the posts |
| `PostList.InsertSortedSpec` | src/app/features/posts/components/post-list/post-list.component.ts:82-83 | inserting into a strictly increasing list keeps it strictly increasing and adds exactly that value, which it holds only once |
| `PostList.ConsSorted` | src/app/features/posts/components/post-list/post-list.component.ts:82-83 | a value below the head of a strictly increasing list can be put in front of it |
| `PostList.SortedDistinctSpec` | src/app/features/posts/components/post-list/post-list.component.ts:81-83 | `Array.from(new Set(ids)).sort((a, b) => a - b)`: strictly increasing, with exactly the values of the input |
| `PostList.StrictlySortedUnique` | src/app/features/posts/components/post-list/post-list.component.ts:81-83 | two strictly increasing lists with the same values are equal, so the user id list is determined by the posts |
| `PostList.HeroImagesAreUrls` | src/app/features/posts/components/post-list/post-list.component.ts:233-235 | no hero image is empty, and there are no more images than posts |
| `PostList.HeroImagesFromPosts` | src/app/features/posts/components/post-list/post-list.component.ts:233-235 | every hero image is the photo url of some post |
| `PostList.HeroImagesAppend` | src/app/features/posts/components/post-list/post-list.component.ts:233-235 | the hero images keep the posts' order |
| `PostList.HeroImagesEmptyIff` | src/app/features/posts/components/post-list/post-list.component.ts:237-240 | the hero falls back exactly when no post has a truthy photo url |
| `PostList.PostListComponent.constructor` | src/app/features/posts/components/post-list/post-list.component.ts:16-36 | the field initialisers: empty lists, cursors at 0, carousel size 3, no loading, no messages |
| `PostList.PostListComponent.Init` | src/app/features/posts/components/post-list/post-list.component.ts:46-62 | carousel sized for the width, empty form, both lists loading with cleared messages; nothing else changes |
| `PostList.PostListComponent.ApplyFilters` | src/app/features/posts/components/post-list/post-list.component.ts:116-139 | the search flag is whether any field is set; the list is the first six of the shuffle for a search and the matching posts otherwise; both post cursors back to 0, actor cursor untouched, cursor invariant kept |
| `PostList.PostListComponent.OnFormChange` | src/app/features/posts/components/post-list/post-list.component.ts:56-58 | the new form values, then the effect of applyFilters |
| `PostList.PostListComponent.ClearFilters` | src/app/features/posts/components/post-list/post-list.component.ts:141-153 | empty form, not a search, every post in order, both post cursors at 0, actor cursor untouched |
| `PostList.PostListComponent.VerticalPosts` | src/app/features/posts/components/post-list/post-list.component.ts:160-163 | at most 6 posts, each the filtered post at the same offset from the cursor's start (non-empty pages: `PagesShowSomething`) |
| `PostList.PostListComponent.HorizontalPosts` | src/app/features/posts/components/post-list/post-list.component.ts:165-168 | at most `horizontalPageSize` posts, each the filtered post at the same offset from the cursor's start (non-empty pages: `PagesShowSomething`) |
| `PostList.PostListComponent.PagesShowSomething` | src/app/features/posts/components/post-list/post-list.component.ts:160-168 | in a valid state, neither post page nor the actor page is blank while there is something to show |
| `PostList.PostListComponent.ShownList` | src/app/features/posts/components/post-list/post-list.component.ts:124-136 | after applyFilters with a true shuffle: no search shows every post in order, a search shows min(6, number of posts) of them |
| `PostList.PostListComponent.ActorCards` | src/app/features/posts/components/post-list/post-list.component.ts:211-214 | at most 6 actors, each the actor at the same offset from the cursor's start (non-empty pages: `PagesShowSomething`) |
| `PostList.PostListComponent.PrevHorizontalPage` | src/app/features/posts/components/post-list/post-list.component.ts:170-176 | the carousel cursor steps back with wrap-around, a no-op on an empty list |
| `PostList.PostListComponent.NextHorizontalPage` | src/app/features/posts/components/post-list/post-list.component.ts:178-184 | the carousel cursor steps forward with wrap-around, a no-op on an empty list |
| `PostList.PostListComponent.UpdateHorizontalPageSize` | src/app/features/posts/components/post-list/post-list.component.ts:186-193 | size 1 below 768 pixels and 3 otherwise; the cursor restarts only when the size changes |
| `PostList.PostListComponent.PrevVerticalPage` | src/app/features/posts/components/post-list/post-list.component.ts:195-201 | the grid cursor steps back with wrap-around, a no-op on an empty list |
| `PostList.PostListComponent.NextVerticalPage` | src/app/features/posts/components/post-list/post-list.component.ts:203-209 | the grid cursor steps forward with wrap-around, a no-op on an empty list |
| `PostList.PostListComponent.PrevActorsPage` | src/app/features/posts/components/post-list/post-list.component.ts:216-222 | the actor cursor steps back with wrap-around, a no-op with no actors |
| `PostList.PostListComponent.NextActorsPage` | src/app/features/posts/components/post-list/post-list.component.ts:224-230 | the actor cursor steps forward with wrap-around, a no-op with no actors |
| `PostList.PostListComponent.SetupHeroCarousel` | src/app/features/posts/components/post-list/post-list.component.ts:232-243 | the hero images of the posts; the fallback url when there are none (index untouched), otherwise index 0 and its image |
| `PostList.PostListComponent.PrevHero` | src/app/features/posts/components/post-list/post-list.component.ts:254-260 | the index steps back modulo the image count and the url is the image at the index; a no-op with no images |
| `PostList.PostListComponent.NextHero` | src/app/features/posts/components/post-list/post-list.component.ts:262-268 | the index steps forward modulo the image count and the url is the image at the index; a no-op with no images |
| `PostList.PostListComponent.StorePosts` | src/app/features/posts/components/post-list/post-list.component.ts:80-84 | the posts stored, their distinct user ids in increasing order, the hero on its first image or on the fallback with its index kept |
| `PostList.PostListComponent.ReceivePosts` | src/app/features/posts/components/post-list/post-list.component.ts:79-88 | the posts, user ids and hero of StorePosts, then the filtered list of applyFilters from page 0, and loading ends; the cursor invariant is kept |
| `PostList.PostListComponent.FailPosts` | src/app/features/posts/components/post-list/post-list.component.ts:89-93 | the error's message is shown and loading ends; nothing else changes |
| `PostList.PostListComponent.OnActorsLoaded` | src/app/features/posts/components/post-list/post-list.component.ts:100-113 | on success the actors and page 0; on failure no actors and the actors message; loading ends either way |
| `PostDetail.RelatedPosts` | src/app/features/posts/components/post-detail/post-detail.component.ts:98-100 | the first min(6, count) of the same-user, other-id posts in list order; so all taken from the list, none more often than in it, and with fewer than 6 every such post |
| `PostDetail.AllRelatedAppend` | src/app/features/posts/components/post-detail/post-detail.component.ts:98-99 | the related posts keep the list's order: those of a prefix come before those of the rest |
| `PostDetail.RelatedPostsAreFirstSix` | src/app/features/posts/components/post-detail/post-detail.component.ts:98-100 | once a prefix of the list holds six related posts, the rest of the list changes nothing |
| `PostDetail.PostDetailComponent.constructor` | src/app/features/posts/components/post-detail/post-detail.component.ts:15-21 | no post, no related posts, not loading, no message, no timeout armed, nothing requested |
| `PostDetail.PostDetailComponent.OnRouteParam` | src/app/features/posts/components/post-detail/post-detail.component.ts:30-37 | an id of 0 or NaN shows the not-found message and requests nothing; any other id starts loadPost |
| `PostDetail.PostDetailComponent.LoadPost` | src/app/features/posts/components/post-detail/post-detail.component.ts:45-60 | loading, message cleared, a fresh soft timeout armed in place of any earlier one, the post requested |
| `PostDetail.PostDetailComponent.SoftTimeoutFires` | src/app/features/posts/components/post-detail/post-detail.component.ts:51-57 | an armed timeout stops the spinner and shows the slow message; a cleared one changes nothing |
| `PostDetail.PostDetailComponent.OnPostReceived` | src/app/features/posts/components/post-detail/post-detail.component.ts:71-76 | the post shown without a photo, then the photo and related posts requested; the message is not touched |
| `PostDetail.PostDetailComponent.OnPostFailed` | src/app/features/posts/components/post-detail/post-detail.component.ts:77-80 | the error's message is shown |
| `PostDetail.PostDetailComponent.Finalize` | src/app/features/posts/components/post-detail/post-detail.component.ts:62-68 | spinner off and soft timeout cleared, keeping the invariant that loading holds exactly while a timeout is armed |
| `PostDetail.PostDetailComponent.OnPhotoReceived` | src/app/features/posts/components/post-detail/post-detail.component.ts:84-93 | only the photo field of the shown post is replaced, and only when there is both a post and a photo |
| `PostDetail.PostDetailComponent.OnRelatedReceived` | src/app/features/posts/components/post-detail/post-detail.component.ts:95-106 | the related selection of the list received, or none on failure |
| `PostDetail.LateAnswerKeepsSlowMessage` | src/app/features/posts/components/post-detail/post-detail.component.ts:51-76 | an answer after the soft timeout shows the post together with the slow message, spinner off |
| `PostDetail.TimelyAnswer` | src/app/features/posts/components/post-detail/post-detail.component.ts:45-76 | an answer in time shows the post with no message and no spinner, and requests exactly the post, its photo and the related posts |
| `PostDetail.MissingIdSendsNothing` | src/app/features/posts/components/post-detail/post-detail.component.ts:31-35 | a route id of 0 or NaN shows the not-found message, sends no request and shows no spinner |
| `PostCard.ToProxyUrl` | src/app/features/posts/components/post-card/post-card.component.ts:48-50 | the result starts with the proxy and is at least as long as proxy and url together |
| `PostCard.ToProxyUrlKeepsText` | src/app/features/posts/components/post-card/post-card.component.ts:48-50 | unreserved text of the url, such as a host name, is still in the proxied url |
| `PostCard.SafeUrl` | src/app/features/posts/components/post-card/post-card.component.ts:52-57 | none exactly for a missing or empty url; a via.placeholder.com url becomes `toProxyUrl(url, proxyA)`; any other url is returned unchanged |
| `PostCard.GetImageUrl` | src/app/features/posts/components/post-card/post-card.component.ts:20-29 | never empty; horizontal uses the url or the placeholder; vertical prefers the thumbnail, then the url, then the placeholder |
| `PostCard.HorizontalIgnoresThumbnail` | src/app/features/posts/components/post-card/post-card.component.ts:21-23 | changing the thumbnail never changes the horizontal image |
| `PostCard.NoPhotoShowsFallback` | src/app/features/posts/components/post-card/post-card.component.ts:20-29 | a post without a photo shows the placeholder in both variants |
| `PostCard.NextSrcAsWritten` | src/app/features/posts/components/post-card/post-card.component.ts:34-45 | onImageError as written: a data URI is kept; a url naming `images.weserv.nl` goes to proxyC before the allorigins test; one naming only `allorigins.win` goes to the placeholder; anything else is wrapped in proxyA |
| `PostCard.NextSrc` | src/app/features/posts/components/post-card/post-card.component.ts:31-46 | corrected onImageError: a data URI is kept, an allorigins url gives the placeholder, a url naming either weserv host (proxyA's `wsrv.nl` included) goes to proxyC, anything else to proxyA |
| `PostCard.FallbackIsDataImage` | src/app/features/posts/components/post-card/post-card.component.ts:15 | the placeholder is a `data:image` URI |
| `PostCard.DataImageIsFixed` | src/app/features/posts/components/post-card/post-card.component.ts:34-36 | a data URI, the placeholder included, is a fixed point of both the written and the corrected chain |
| `PostCard.ProxiedIsNotData` | src/app/features/posts/components/post-card/post-card.component.ts:48-50 | a proxied url is never taken for a data URI |
| `PostCard.ProxyCNamesAllorigins` | src/app/features/posts/components/post-card/post-card.component.ts:18 | a proxyC url contains `allorigins.win` |
| `PostCard.ProxyANamesWsrv` | src/app/features/posts/components/post-card/post-card.component.ts:16 | a proxyA url contains `wsrv.nl` |
| `PostCard.SettlesWithinThreeErrors` | src/app/features/posts/components/post-card/post-card.component.ts:31-46 | corrected chain: from any src, by the third error the card is on a data URI, where it stays |
| `PostCard.ProxyAAddsNoHost` | src/app/features/posts/components/post-card/post-card.component.ts:16 | wrapping in proxyA introduces neither `images.weserv.nl` nor `allorigins.win` |
| `PostCard.ProxyALacks` | src/app/features/posts/components/post-card/post-card.component.ts:16 | neither `i` nor `a` occurs in proxyA, so no host name can start inside it |
| `PostCard.HostsArePlain` | src/app/features/posts/components/post-card/post-card.component.ts:37-41 | the host names tested are lower-case letters and dots, which no escape produces |
| `PostCard.RewrappedStep` | src/app/features/posts/components/post-card/post-card.component.ts:37-45 | as written, a src with no data prefix and neither host is wrapped in proxyA, and the longer result again has neither |
| `PostCard.RewrappedForever` | src/app/features/posts/components/post-card/post-card.component.ts:37-45 | as written, such a src never reaches the placeholder, however many errors follow |
| `PostCard.PlainUrlIsRewrapped` | src/app/features/posts/components/post-card/post-card.component.ts:45 | `https://h/img` has no data prefix and neither host |
| `PostCard.PlainUrlLoops` | src/app/features/posts/components/post-card/post-card.component.ts:37-45 | as written, `https://h/img` never reaches the placeholder |
| `PostCard.ChainsPartOnProxiedUrl` | src/app/features/posts/components/post-card/post-card.component.ts:37-45 | after one error on `https://h/img` the src is proxyA's url; the written chain wraps that in proxyA again, the corrected one moves it to proxyC |
| `PostCard.WeservLoopsForever` | src/app/features/posts/components/post-card/post-card.component.ts:37-40 | as written, a src naming images.weserv.nl names it after every error and is never a data URI |
| `PostCard.WeservUrlLoops` | src/app/features/posts/components/post-card/post-card.component.ts:37-44 | as written, `https://images.weserv.nl/?url=x` never reaches a data URI |
| `PostCard.PostCardImage.constructor` | src/app/features/posts/components/post-card/post-card.component.ts:32-33 | the element starts with the given src |
| `PostCard.PostCardImage.OnImageError` | src/app/features/posts/components/post-card/post-card.component.ts:31-46 | the src becomes `NextSrcAsWritten` of the old src, tested in the source's order |
| `PostCard.PostCardImage.OnImageErrorCorrected` | src/app/features/posts/components/post-card/post-card.component.ts:31-46 | the corrected handler: the src becomes `NextSrc` of the old src |
| `AuthModal.Emission` | src/app/core/auth/auth-modal.service.ts:22-35 | openLogin and openRegister emit the open state of their mode from any state; close emits the closed state with the same mode only when open, and nothing otherwise |
| `AuthModal.CloseIdempotent` | src/app/core/auth/auth-modal.service.ts:30-35 | closing twice is closing once, the second close emits nothing, and close keeps the mode |
| `AuthModal.OnlyOpeningChangesMode` | src/app/core/auth/auth-modal.service.ts:22-34 | a run of closes never changes the mode and never opens the dialog |
| `AuthModal.RunIsLastEmission` | src/app/core/auth/auth-modal.service.ts:15-20 | the current value after a run is the last value emitted, or the starting one when nothing was emitted |
| `AuthModal.NoRepeatedClose` | src/app/core/auth/auth-modal.service.ts:31-33 | subscribers never see the closed state twice in a row |
| `AuthModal.AuthModalService.constructor` | src/app/core/auth/auth-modal.service.ts:15-18 | the subject starts at `{open: false, mode: 'login'}` |
| `AuthModal.AuthModalService.OpenLoginModal` | src/app/core/auth/auth-modal.service.ts:22-24 | emits the open login state |
| `AuthModal.AuthModalService.OpenRegisterModal` | src/app/core/auth/auth-modal.service.ts:26-28 | emits the open register state |
| `AuthModal.AuthModalService.CloseModal` | src/app/core/auth/auth-modal.service.ts:30-35 | emits the closed state with the same mode when open, and nothing when already closed |

## Left out

- HTTP, RxJS and change detection are not modelled: `forkJoin`, `switchMap`, `timeout(8000)`, `catchError`, subscriptions, `takeUntil`/`ngOnDestroy` and `cdr.detectChanges`. Each fetch outcome is a `Response` or `Result` input, and a timeout is a `Failed` response.
- Which answers arrive, and in which order, is up to the caller of the event methods. The model does not tie a late answer to the request that caused it. A stale answer is applied exactly as a fresh one would be, as in the source.
- Timers are events the caller triggers:
  - the 300 ms debounce and `startWith` on the form become `OnFormChange`;
  - the 4-second hero `interval` is a caller of `NextHero`, and the model does not say that each `setupHeroCarousel` call starts one more interval;
  - the 6-second soft timeout becomes `SoftTimeoutFires`.
- `Math.random` in the shuffle is a `shuffled` parameter. That it is a permutation of the posts is a hypothesis of `RandomPostsIsSample`, `FilteredCases` and `ShownList`, not a field of the component. Nothing is claimed about the distribution.
- PostList.PostListComponent.ApplyFilters: its contract names the list it computes (`Filtered`). What that list contains is stated by `FilteredCases` and `ShownList`, which need the shuffle to be a permutation.
- `window.innerWidth` is the `width` parameter; the resize listener is a call to `UpdateHorizontalPageSize`.
- Text.ToLower: only ASCII letters are lowered; JavaScript's full Unicode case mapping is not modelled.
- Text.Trim: removes the ASCII white space and NBSP, LS, PS and BOM. The other Unicode space separators that `trim` also removes are not modelled.
- `Number(format)` is modelled as `Option<int>`: None is the empty field, and a NaN is written as `Some(0)`, since both are falsy to `!userFilter`. Fractional numbers are not modelled.
- `Number(params.get('id'))` is modelled as `Option<int>` with None for NaN. Fractional ids are not modelled.
- The `error.message ?? 'Ocurrió un error inesperado.'` fallback is not modelled: every error the service raises carries a message. `FailPosts` and `OnPostFailed` take that message.
- UriEncoding.Utf8: states the byte count, the continuation-byte range and the one-byte case. It does not state the bit layout of multi-byte sequences.
- `encodeURIComponent` throwing on lone surrogates is not modelled: Dafny characters are Unicode scalar values, so no lone surrogate can be written.
- `proxyB` (`https://images.weserv.nl/?url=`) is declared but never used by the component, so it has no counterpart.
- The `PostCardImage` element keeps only `src`; the rest of the DOM event is not modelled.
- PostList.PostListComponent.Init: ngOnInit runs once, on a component whose actor list is still empty. `OnActorsLoaded` accepts only the answer to the request Init sent, when `actorsLoading` holds.
- The templates, `auth-modal.component.ts`, `menu.component.ts`, `app.component.ts`, the Angular modules and the routing are not part of this model. They only delegate or wire things together.

## Findings

| source | as written | input that shows it | evidently intended | confidence | as-written member | corrected member |
|---|---|---|---|---|---|---|
| src/app/features/posts/components/post-card/post-card.component.ts:37-45 | A failing src is wrapped in proxyA, whose host is `wsrv.nl`. The test that should move it on looks for `images.weserv.nl` instead, which proxyA's url never contains. So each error wraps the url in proxyA once more, and the placeholder is never reached. | `https://h/img` | after proxyA fails, try allorigins (proxyC), then the placeholder | high; not executed | `PostCard.PlainUrlLoops` | `PostCard.SettlesWithinThreeErrors` |
| src/app/features/posts/components/post-card/post-card.component.ts:37-44 | The `images.weserv.nl` test comes before the `allorigins.win` test. The allorigins-wrapped url still names `images.weserv.nl` in its encoded query. So it is wrapped in allorigins again on every error and never reaches the placeholder. | `https://images.weserv.nl/?url=x` | an allorigins url that fails gives the placeholder | high; not executed | `PostCard.WeservUrlLoops` | `PostCard.SettlesWithinThreeErrors` |
