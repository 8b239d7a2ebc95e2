/** PostListComponent: the listing page's state. The form, the HTTP answers,
    the window width and the shuffled copy of the posts are inputs of the
    methods that react to them; timers are left to the caller, which invokes
    `NextHero` when the rotation interval fires. */
module PostList {
  import opened Wrappers
  import opened Text
  import opened Seqs
  import opened Models
  import opened Pagination

  const VerticalPageSize: nat := 6
  const ActorsPageSize: nat := 6
  const SearchSampleSize: nat := 6
  const MobileBreakpoint := 768
  const HeroFallback := "https://images.unsplash.com/photo-1506157786151-b8491531f063?auto=format&fit=crop&w=1600&q=60"
  const ActorsLoadError := "No se pudieron cargar los actores."

  /** The filter form's values. `format` is None for an empty field, and
      otherwise the value of `Number(format)` (NaN written as 0: both are
      falsy to `!userFilter`). */
  datatype FilterForm = FilterForm(title: Option<string>, cinema: string, date: string, time: string, format: Option<int>)

  /** The form as `clearFilters` resets it. */
  const EmptyForm := FilterForm(Some(""), "", "", "", None)

  /** `title?.toLowerCase().trim() ?? ''`. */
  function SearchTerm(form: FilterForm): string
  {
    if form.title.Some? then Trim(ToLower(form.title.value)) else ""
  }

  /** `Boolean(term || cinema || date || time || format)`. */
  predicate IsSearch(form: FilterForm)
  {
    SearchTerm(form) != "" || form.cinema != "" || form.date != "" || form.time != "" || form.format.Some?
  }

  /** The `posts.filter` predicate of the non-search branch. */
  predicate Matches(post: PostWithPhoto, term: string, userFilter: Option<int>)
  {
    && (term == "" || Contains(ToLower(post.title), term))
    && (userFilter.None? || userFilter.value == 0 || post.userId == userFilter.value)
  }

  /** The non-search branch of applyFilters: the posts that match, in order. */
  function FilterPosts(posts: seq<PostWithPhoto>, form: FilterForm): seq<PostWithPhoto>
  {
    if posts == [] then []
    else
      (if Matches(posts[0], SearchTerm(form), form.format) then [posts[0]] else [])
        + FilterPosts(posts[1..], form)
  }

  /** The filter keeps exactly the matching posts. */
  lemma {:induction false} FilterPostsKeepsMatches(posts: seq<PostWithPhoto>, form: FilterForm)
    ensures forall p :: p in FilterPosts(posts, form) <==> p in posts && Matches(p, SearchTerm(form), form.format)
  {
    if posts != [] {
      FilterPostsKeepsMatches(posts[1..], form);
      assert posts == [posts[0]] + posts[1..];
    }
  }

  /** FilterPosts is the `posts.filter` of the source, with its predicate. */
  lemma {:induction false} FilterPostsIsFilter(posts: seq<PostWithPhoto>, form: FilterForm)
    ensures FilterPosts(posts, form) == Filter(posts, p => Matches(p, SearchTerm(form), form.format))
  {
    if posts != [] {
      FilterPostsIsFilter(posts[1..], form);
    }
  }

  /** When no field is set the filter keeps every post, in order: both
      predicates hold vacuously. */
  lemma {:induction false} FilterWithoutSearchKeepsAll(posts: seq<PostWithPhoto>, form: FilterForm)
    requires !IsSearch(form)
    ensures FilterPosts(posts, form) == posts
  {
    if posts != [] {
      FilterWithoutSearchKeepsAll(posts[1..], form);
      assert [posts[0]] + posts[1..] == posts;
    }
  }

  /** getRandomPosts(count): the first `count` posts of a shuffled copy of
      the posts. The shuffle is an input of the model. */
  function RandomPosts(shuffled: seq<PostWithPhoto>, count: nat): seq<PostWithPhoto>
  {
    Take(shuffled, count)
  }

  /** When the shuffle is a permutation of the posts, the sample holds
      min(count, number of posts) of them, none more often than it occurs. */
  lemma RandomPostsIsSample(posts: seq<PostWithPhoto>, shuffled: seq<PostWithPhoto>, count: nat)
    requires multiset(shuffled) == multiset(posts)
    ensures |RandomPosts(shuffled, count)| == if count < |posts| then count else |posts|
    ensures multiset(RandomPosts(shuffled, count)) <= multiset(posts)
  {
    var sample := RandomPosts(shuffled, count);
    assert |shuffled| == |multiset(shuffled)| == |posts|;
    assert shuffled == sample + shuffled[|sample|..];
  }

  /** The list applyFilters shows: a random sample for a search, otherwise
      the filtered posts. */
  function Filtered(posts: seq<PostWithPhoto>, form: FilterForm, shuffled: seq<PostWithPhoto>): seq<PostWithPhoto>
  {
    if IsSearch(form) then RandomPosts(shuffled, SearchSampleSize) else FilterPosts(posts, form)
  }

  /** Without a search the list is all the posts, in order; with one it is
      a sample of six of them (fewer when there are fewer posts). */
  lemma FilteredCases(posts: seq<PostWithPhoto>, form: FilterForm, shuffled: seq<PostWithPhoto>)
    requires multiset(shuffled) == multiset(posts)
    ensures !IsSearch(form) ==> Filtered(posts, form, shuffled) == posts
    ensures IsSearch(form) ==> |Filtered(posts, form, shuffled)| == if SearchSampleSize < |posts| then SearchSampleSize else |posts|
    ensures IsSearch(form) ==> multiset(Filtered(posts, form, shuffled)) <= multiset(posts)
  {
    if IsSearch(form) {
      RandomPostsIsSample(posts, shuffled, SearchSampleSize);
    } else {
      FilterWithoutSearchKeepsAll(posts, form);
    }
  }

  /** Strictly increasing. */
  predicate StrictlySorted(s: seq<int>)
  {
    forall i, j :: 0 <= i < j < |s| ==> s[i] < s[j]
  }

  /** x put in its place in an increasing list, unless already there. */
  function InsertSorted(x: int, s: seq<int>): seq<int>
  {
    if s == [] then [x]
    else if x < s[0] then [x] + s
    else if x == s[0] then s
    else [s[0]] + InsertSorted(x, s[1..])
  }

  /** Inserting adds exactly x and keeps a strictly increasing list so. */
  lemma {:induction false} InsertSortedSpec(x: int, s: seq<int>)
    ensures forall y :: y in InsertSorted(x, s) <==> y == x || y in s
    ensures StrictlySorted(s) ==> StrictlySorted(InsertSorted(x, s))
  {
    if s != [] && x > s[0] {
      var rest := InsertSorted(x, s[1..]);
      InsertSortedSpec(x, s[1..]);
      assert s == [s[0]] + s[1..];
      if StrictlySorted(s) {
        assert rest != [] ==> rest[0] in rest;
        ConsSorted(s[0], rest);
      }
    } else if s != [] && x < s[0] && StrictlySorted(s) {
      ConsSorted(x, s);
    }
  }

  /** A value below every element of a strictly sorted list can head it. */
  lemma ConsSorted(a: int, s: seq<int>)
    requires StrictlySorted(s)
    requires s != [] ==> a < s[0]
    ensures StrictlySorted([a] + s)
  {
    var r := [a] + s;
    forall i, j | 0 <= i < j < |r| ensures r[i] < r[j] {
      if i == 0 {
        assert r[j] == s[j - 1] && r[j] in s;
        assert s[0] <= s[j - 1];
      } else {
        assert r[i] == s[i - 1] && r[j] == s[j - 1];
      }
    }
  }

  /** `Array.from(new Set(xs)).sort((a, b) => a - b)`: the values of xs,
      each once, in increasing order. */
  function SortedDistinct(xs: seq<int>): seq<int>
  {
    if xs == [] then [] else InsertSorted(xs[|xs| - 1], SortedDistinct(xs[..|xs| - 1]))
  }

  /** SortedDistinct is strictly increasing and holds exactly the values of
      its input. */
  lemma {:induction false} SortedDistinctSpec(xs: seq<int>)
    ensures StrictlySorted(SortedDistinct(xs))
    ensures forall y :: y in SortedDistinct(xs) <==> y in xs
  {
    if xs != [] {
      var init := xs[..|xs| - 1];
      SortedDistinctSpec(init);
      InsertSortedSpec(xs[|xs| - 1], SortedDistinct(init));
      assert xs == init + [xs[|xs| - 1]];
    }
  }

  /** Two strictly sorted lists with the same elements are equal, so
      SortedDistinct is the one answer. */
  lemma {:induction false} StrictlySortedUnique(a: seq<int>, b: seq<int>)
    requires StrictlySorted(a) && StrictlySorted(b)
    requires forall y :: y in a <==> y in b
    ensures a == b
  {
    if a != [] || b != [] {
      assert a != [] ==> a[0] in a && a[0] in b;
      assert b != [] ==> b[0] in b && b[0] in a;
      var j :| 0 <= j < |b| && b[j] == a[0];
      assert b[0] <= a[0];
      var k :| 0 <= k < |a| && a[k] == b[0];
      assert a[0] <= b[0];
      forall y ensures y in a[1..] <==> y in b[1..] {
        if y in a[1..] {
          assert y in b && y != b[0];
        }
        if y in b[1..] {
          assert y in a && y != a[0];
        }
      }
      StrictlySortedUnique(a[1..], b[1..]);
      assert a == [a[0]] + a[1..] && b == [b[0]] + b[1..];
    }
  }

  /** The user ids of the posts. */
  function UserIdsOf(posts: seq<PostWithPhoto>): seq<int>
  {
    seq(|posts|, i requires 0 <= i < |posts| => posts[i].userId)
  }

  /** The image one post offers the hero: its photo url when truthy. */
  function HeroImage(post: PostWithPhoto): seq<string>
  {
    if Truthy(PhotoUrl(post)) then [PhotoUrl(post).value] else []
  }

  /** `posts.map((post) => post.photo?.url).filter(Boolean)`. */
  function HeroImages(posts: seq<PostWithPhoto>): seq<string>
  {
    if posts == [] then [] else HeroImage(posts[0]) + HeroImages(posts[1..])
  }

  /** At most one image per post, and none of them empty. */
  lemma {:induction false} HeroImagesAreUrls(posts: seq<PostWithPhoto>)
    ensures |HeroImages(posts)| <= |posts|
    ensures forall i :: 0 <= i < |HeroImages(posts)| ==> HeroImages(posts)[i] != ""
  {
    if posts != [] {
      HeroImagesAreUrls(posts[1..]);
      var head := HeroImage(posts[0]);
      var rest := HeroImages(posts[1..]);
      assert HeroImages(posts) == head + rest;
      assert forall i :: |head| <= i < |head + rest| ==> (head + rest)[i] == rest[i - |head|];
    }
  }

  /** Every hero image is the photo url of some post. */
  lemma {:induction false} HeroImagesFromPosts(posts: seq<PostWithPhoto>)
    ensures forall i :: 0 <= i < |HeroImages(posts)| ==>
      exists j :: 0 <= j < |posts| && PhotoUrl(posts[j]) == Some(HeroImages(posts)[i])
  {
    if posts != [] {
      HeroImagesFromPosts(posts[1..]);
      var head := HeroImage(posts[0]);
      var rest := HeroImages(posts[1..]);
      var images := HeroImages(posts);
      assert images == head + rest;
      forall i | 0 <= i < |images|
        ensures exists j :: 0 <= j < |posts| && PhotoUrl(posts[j]) == Some(images[i])
      {
        if i < |head| {
          assert PhotoUrl(posts[0]) == Some(images[i]);
        } else {
          assert images[i] == rest[i - |head|];
          var j :| 0 <= j < |posts[1..]| && PhotoUrl(posts[1..][j]) == Some(rest[i - |head|]);
          assert posts[j + 1] == posts[1..][j];
        }
      }
    } else {
      assert HeroImages(posts) == [];
    }
  }

  /** HeroImages keeps the posts' order. */
  lemma {:induction false} HeroImagesAppend(a: seq<PostWithPhoto>, b: seq<PostWithPhoto>)
    ensures HeroImages(a + b) == HeroImages(a) + HeroImages(b)
  {
    if a == [] {
      assert a + b == b;
    } else {
      assert (a + b)[0] == a[0];
      assert (a + b)[1..] == a[1..] + b;
      HeroImagesAppend(a[1..], b);
    }
  }

  /** The hero falls back exactly when no post has a truthy photo url. */
  lemma {:induction false} HeroImagesEmptyIff(posts: seq<PostWithPhoto>)
    ensures HeroImages(posts) == [] <==> forall j :: 0 <= j < |posts| ==> !Truthy(PhotoUrl(posts[j]))
  {
    if posts != [] {
      HeroImagesEmptyIff(posts[1..]);
      assert forall j :: 1 <= j < |posts| ==> posts[j] == posts[1..][j - 1];
    }
  }

  class PostListComponent {
    var form: FilterForm
    var posts: seq<PostWithPhoto>
    var filteredPosts: seq<PostWithPhoto>
    var userIds: seq<int>
    var loading: bool
    var errorMessage: string
    var isSearchResult: bool
    var heroImages: seq<string>
    var heroImageUrl: string
    var heroIndex: nat
    var verticalPage: nat
    var horizontalPage: nat
    var horizontalPageSize: nat
    var actors: seq<Actor>
    var actorsPage: nat
    var actorsLoading: bool
    var actorsError: string

    /** Every cursor points at an existing page (or page 0); actors are
        only loaded once, into an empty list. */
    ghost predicate PagesValid()
      reads this`horizontalPageSize, this`verticalPage, this`horizontalPage, this`actorsPage,
            this`filteredPosts, this`actors, this`actorsLoading
    {
      && (horizontalPageSize == 1 || horizontalPageSize == 3)
      && InRange(verticalPage, |filteredPosts|, VerticalPageSize)
      && InRange(horizontalPage, |filteredPosts|, horizontalPageSize)
      && InRange(actorsPage, |actors|, ActorsPageSize)
      && (actorsLoading ==> actors == [] && actorsPage == 0)
    }

    /** The hero shows the image its index selects. */
    ghost predicate HeroValid()
      reads this`heroImages, this`heroIndex, this`heroImageUrl
    {
      heroImages != [] ==> heroIndex < |heroImages| && heroImageUrl == heroImages[heroIndex]
    }

    /** The component's invariant. Each method keeps the half over the
        fields it modifies; the other half reads none of them. */
    ghost predicate Valid()
      reads this`horizontalPageSize, this`verticalPage, this`horizontalPage, this`actorsPage,
            this`filteredPosts, this`actors, this`actorsLoading, this`heroImages, this`heroIndex,
            this`heroImageUrl
    {
      PagesValid() && HeroValid()
    }

    /** What applyFilters leaves: the list for the form (`shuffled` being
        the reordering a search samples from) shown from its first page. */
    ghost predicate FiltersApplied(shuffled: seq<PostWithPhoto>)
      reads this`form, this`posts, this`isSearchResult, this`filteredPosts, this`verticalPage, this`horizontalPage
    {
      && isSearchResult == IsSearch(form)
      && filteredPosts == Filtered(posts, form, shuffled)
      && verticalPage == 0 && horizontalPage == 0
    }

    /** What the success handler of loadPosts records: the posts, their
        distinct user ids in increasing order, and the hero on its first
        image, or on the fallback with the index it had before. */
    ghost predicate Stored(loaded: seq<PostWithPhoto>, previousHeroIndex: nat)
      reads this`posts, this`userIds, this`heroImages, this`heroImageUrl, this`heroIndex
    {
      && posts == loaded
      && userIds == SortedDistinct(UserIdsOf(loaded))
      && heroImages == HeroImages(loaded)
      && (heroImages == [] ==> heroImageUrl == HeroFallback && heroIndex == previousHeroIndex)
      && (heroImages != [] ==> heroIndex == 0 && heroImageUrl == heroImages[0])
    }

    /** The field initialisers. */
    constructor ()
      ensures Valid()
      ensures posts == [] && filteredPosts == [] && userIds == [] && actors == []
      ensures !loading && errorMessage == "" && !isSearchResult
      ensures heroImages == [] && heroImageUrl == "" && heroIndex == 0
      ensures verticalPage == 0 && horizontalPage == 0 && actorsPage == 0 && horizontalPageSize == 3
      ensures !actorsLoading && actorsError == "" && form == EmptyForm
    {
      form := EmptyForm;
      posts, filteredPosts, userIds := [], [], [];
      loading, errorMessage, isSearchResult := false, "", false;
      heroImages, heroImageUrl, heroIndex := [], "", 0;
      verticalPage, horizontalPage, horizontalPageSize := 0, 0, 3;
      actors, actorsPage, actorsLoading, actorsError := [], 0, false, "";
    }

    /** ngOnInit up to the requests it sends: size the carousel for the
        window, build the empty form, and mark both lists as loading. It
        runs once, before any actor has been loaded. */
    method Init(width: int)
      requires Valid() && actors == [] && actorsPage == 0
      modifies this`horizontalPageSize, this`horizontalPage, this`form, this`loading, this`errorMessage,
               this`actorsLoading, this`actorsError
      ensures Valid()
      ensures horizontalPageSize == (if width < MobileBreakpoint then 1 else 3)
      ensures horizontalPage == (if horizontalPageSize != old(horizontalPageSize) then 0 else old(horizontalPage))
      ensures form == EmptyForm && loading && errorMessage == "" && actorsLoading && actorsError == ""
    {
      UpdateHorizontalPageSize(width);
      form := EmptyForm;
      loading, errorMessage := true, "";
      actorsLoading, actorsError := true, "";
    }

    /** applyFilters, with `shuffled` standing for the random reordering
        that getRandomPosts draws. */
    method ApplyFilters(shuffled: seq<PostWithPhoto>)
      requires PagesValid()
      modifies this`isSearchResult, this`filteredPosts, this`verticalPage, this`horizontalPage
      ensures PagesValid() && FiltersApplied(shuffled)
    {
      isSearchResult, filteredPosts := IsSearch(form), Filtered(posts, form, shuffled);
      verticalPage, horizontalPage := 0, 0;
    }

    /** The debounced form subscription: the new values, then applyFilters. */
    method OnFormChange(newForm: FilterForm, shuffled: seq<PostWithPhoto>)
      requires PagesValid()
      modifies this`form, this`isSearchResult, this`filteredPosts, this`verticalPage, this`horizontalPage
      ensures PagesValid() && form == newForm && FiltersApplied(shuffled)
    {
      form := newForm;
      ApplyFilters(shuffled);
    }

    /** clearFilters: empty form, every post in its original order, the two
        post cursors back to the first page. */
    method ClearFilters()
      requires PagesValid()
      modifies this`form, this`isSearchResult, this`filteredPosts, this`verticalPage, this`horizontalPage
      ensures PagesValid()
      ensures form == EmptyForm && !isSearchResult && filteredPosts == posts
      ensures verticalPage == 0 && horizontalPage == 0
    {
      form := EmptyForm;
      isSearchResult := false;
      filteredPosts := posts;
      verticalPage := 0;
      horizontalPage := 0;
    }

    /** The `verticalPosts` getter. */
    function VerticalPosts(): (w: seq<PostWithPhoto>)
      reads this
      ensures |w| <= VerticalPageSize
      ensures forall i :: 0 <= i < |w| ==>
        verticalPage * VerticalPageSize + i < |filteredPosts| && w[i] == filteredPosts[verticalPage * VerticalPageSize + i]
    {
      Window(filteredPosts, verticalPage, VerticalPageSize)
    }

    /** The `horizontalPosts` getter. */
    function HorizontalPosts(): (w: seq<PostWithPhoto>)
      reads this
      ensures |w| <= horizontalPageSize
      ensures forall i :: 0 <= i < |w| ==>
        horizontalPage * horizontalPageSize + i < |filteredPosts|
        && w[i] == filteredPosts[horizontalPage * horizontalPageSize + i]
    {
      Window(filteredPosts, horizontalPage, horizontalPageSize)
    }

    /** The `actorCards` getter. */
    function ActorCards(): (w: seq<Actor>)
      reads this
      ensures |w| <= ActorsPageSize
      ensures forall i :: 0 <= i < |w| ==>
        actorsPage * ActorsPageSize + i < |actors| && w[i] == actors[actorsPage * ActorsPageSize + i]
    {
      Window(actors, actorsPage, ActorsPageSize)
    }

    /** In a valid state no page a cursor is on is blank while there is
        something to show. */
    lemma PagesShowSomething()
      requires PagesValid()
      ensures filteredPosts != [] ==> VerticalPosts() != [] && HorizontalPosts() != []
      ensures actors != [] ==> ActorCards() != []
    {
      InRangeWindowNonEmpty(filteredPosts, verticalPage, VerticalPageSize);
      InRangeWindowNonEmpty(filteredPosts, horizontalPage, horizontalPageSize);
      InRangeWindowNonEmpty(actors, actorsPage, ActorsPageSize);
    }

    /** With a real shuffle, the list applyFilters leaves is every post
        when nothing is searched, and a sample of six of them otherwise. */
    lemma ShownList(shuffled: seq<PostWithPhoto>)
      requires FiltersApplied(shuffled) && multiset(shuffled) == multiset(posts)
      ensures !isSearchResult ==> filteredPosts == posts
      ensures isSearchResult ==> |filteredPosts| == if SearchSampleSize < |posts| then SearchSampleSize else |posts|
      ensures isSearchResult ==> multiset(filteredPosts) <= multiset(posts)
    {
      FilteredCases(posts, form, shuffled);
    }

    method PrevHorizontalPage()
      requires PagesValid()
      modifies this`horizontalPage
      ensures PagesValid()
      ensures horizontalPage == PrevPage(old(horizontalPage), |filteredPosts|, horizontalPageSize)
    {
      if |filteredPosts| == 0 {
        return;
      }
      horizontalPage := PrevPage(horizontalPage, |filteredPosts|, horizontalPageSize);
    }

    method NextHorizontalPage()
      requires PagesValid()
      modifies this`horizontalPage
      ensures PagesValid()
      ensures horizontalPage == NextPage(old(horizontalPage), |filteredPosts|, horizontalPageSize)
    {
      if |filteredPosts| == 0 {
        return;
      }
      horizontalPage := NextPage(horizontalPage, |filteredPosts|, horizontalPageSize);
    }

    /** updateHorizontalPageSize, with the window width as input: one card
        below 768 pixels, three otherwise; the cursor restarts only when
        the size changes. */
    method UpdateHorizontalPageSize(width: int)
      requires PagesValid()
      modifies this`horizontalPageSize, this`horizontalPage
      ensures PagesValid()
      ensures horizontalPageSize == (if width < MobileBreakpoint then 1 else 3)
      ensures horizontalPage == (if horizontalPageSize != old(horizontalPageSize) then 0 else old(horizontalPage))
    {
      var nextSize := if width < MobileBreakpoint then 1 else 3;
      if horizontalPageSize != nextSize {
        horizontalPageSize := nextSize;
        horizontalPage := 0;
      }
    }

    method PrevVerticalPage()
      requires PagesValid()
      modifies this`verticalPage
      ensures PagesValid()
      ensures verticalPage == PrevPage(old(verticalPage), |filteredPosts|, VerticalPageSize)
    {
      if |filteredPosts| == 0 {
        return;
      }
      verticalPage := PrevPage(verticalPage, |filteredPosts|, VerticalPageSize);
    }

    method NextVerticalPage()
      requires PagesValid()
      modifies this`verticalPage
      ensures PagesValid()
      ensures verticalPage == NextPage(old(verticalPage), |filteredPosts|, VerticalPageSize)
    {
      if |filteredPosts| == 0 {
        return;
      }
      verticalPage := NextPage(verticalPage, |filteredPosts|, VerticalPageSize);
    }

    method PrevActorsPage()
      requires PagesValid()
      modifies this`actorsPage
      ensures PagesValid()
      ensures actorsPage == PrevPage(old(actorsPage), |actors|, ActorsPageSize)
    {
      if |actors| == 0 {
        return;
      }
      actorsPage := PrevPage(actorsPage, |actors|, ActorsPageSize);
    }

    method NextActorsPage()
      requires PagesValid()
      modifies this`actorsPage
      ensures PagesValid()
      ensures actorsPage == NextPage(old(actorsPage), |actors|, ActorsPageSize)
    {
      if |actors| == 0 {
        return;
      }
      actorsPage := NextPage(actorsPage, |actors|, ActorsPageSize);
    }

    /** setupHeroCarousel without its interval: collect the images and show
        the first, or the fallback when there is none. */
    method SetupHeroCarousel()
      requires HeroValid()
      modifies this`heroImages, this`heroImageUrl, this`heroIndex
      ensures HeroValid()
      ensures heroImages == HeroImages(posts)
      ensures heroImages == [] ==> heroImageUrl == HeroFallback && heroIndex == old(heroIndex)
      ensures heroImages != [] ==> heroIndex == 0 && heroImageUrl == heroImages[0]
    {
      heroImages := HeroImages(posts);
      if |heroImages| == 0 {
        heroImageUrl := HeroFallback;
        return;
      }
      heroIndex := 0;
      heroImageUrl := heroImages[heroIndex];
    }

    method PrevHero()
      requires HeroValid()
      modifies this`heroIndex, this`heroImageUrl
      ensures HeroValid()
      ensures heroIndex == CyclePrev(old(heroIndex), |heroImages|)
      ensures heroImages == [] ==> heroImageUrl == old(heroImageUrl)
    {
      if |heroImages| == 0 {
        return;
      }
      heroIndex := CyclePrev(heroIndex, |heroImages|);
      heroImageUrl := heroImages[heroIndex];
    }

    method NextHero()
      requires HeroValid()
      modifies this`heroIndex, this`heroImageUrl
      ensures HeroValid()
      ensures heroIndex == CycleNext(old(heroIndex), |heroImages|)
      ensures heroImages == [] ==> heroImageUrl == old(heroImageUrl)
    {
      if |heroImages| == 0 {
        return;
      }
      heroIndex := CycleNext(heroIndex, |heroImages|);
      heroImageUrl := heroImages[heroIndex];
    }

    /** The first half of loadPosts' success handler: the posts, their
        user ids and the hero carousel. */
    method StorePosts(loaded: seq<PostWithPhoto>)
      requires HeroValid()
      modifies this`posts, this`userIds, this`heroImages, this`heroImageUrl, this`heroIndex
      ensures HeroValid() && Stored(loaded, old(heroIndex))
    {
      posts, userIds := loaded, SortedDistinct(UserIdsOf(loaded));
      SetupHeroCarousel();
    }

    /** The success handler of loadPosts: keep the posts, list their
        distinct user ids in increasing order, set up the hero, apply the
        filters, and loading is over. */
    method ReceivePosts(loaded: seq<PostWithPhoto>, shuffled: seq<PostWithPhoto>)
      requires Valid()
      modifies this`posts, this`userIds, this`heroImages, this`heroImageUrl, this`heroIndex,
               this`isSearchResult, this`filteredPosts, this`verticalPage, this`horizontalPage, this`loading
      ensures Valid() && !loading && Stored(loaded, old(heroIndex)) && FiltersApplied(shuffled)
    {
      StorePosts(loaded);
      ApplyFilters(shuffled);
      loading := false;
    }

    /** The error handler of loadPosts: the message, and nothing else but
        the loading flag changes. */
    method FailPosts(message: string)
      requires Valid()
      modifies this`errorMessage, this`loading
      ensures Valid() && errorMessage == message && !loading
    {
      errorMessage := message;
      loading := false;
    }

    /** The success and error handlers of loadActors. */
    method OnActorsLoaded(result: Result<seq<Actor>>)
      requires Valid() && actorsLoading
      modifies this`actors, this`actorsPage, this`actorsLoading, this`actorsError
      ensures Valid() && !actorsLoading
      ensures result.Ok? ==> actors == result.value && actorsPage == 0 && actorsError == old(actorsError)
      ensures result.Err? ==> actors == [] && actorsError == ActorsLoadError && actorsPage == old(actorsPage)
    {
      match result
      case Ok(loaded) =>
        actors := loaded;
        actorsPage := 0;
        actorsLoading := false;
      case Err(_) =>
        actors := [];
        actorsError := ActorsLoadError;
        actorsLoading := false;
    }
  }
}
