/** The watchlist and trending store of `src/lib/data.ts`. Each user's
    watchlist lives in the local partition under `playHive_watchlist_<id>`;
    the trending list is one in-memory list for everybody, cached under
    `playHive_trending`. Like the session layer, the store keeps its own
    one-way `useLocalStorageFallback` flag. */
module Data {
  import opened Storage
  import opened Lists
  import Auth

  datatype Kind = Movie | Series {
    /** The `type` field's text, which also prefixes generated ids. */
    function Name(): (s: string)
      ensures s == "movie" || s == "series"
    {
      match this
      case Movie => "movie"
      case Series => "series"
    }
  }

  /** A media item. The source's optional fields are `Option`s. */
  datatype MediaItem = MediaItem(
    id: string,
    title: string,
    link: string,
    kind: Kind,
    genre: string,
    season: Option<int>,
    episode: Option<int>,
    addedAt: string,
    isTrending: Option<bool>,
    thumbnailUrl: Option<string>,
    embedId: Option<string>)
  {
    /** The item without its `id` and `addedAt`. */
    function Fields(): Draft {
      Draft(title, link, kind, genre, season, episode, isTrending, thumbnailUrl, embedId)
    }
  }

  /** What callers pass to the add operations: a media item without `id`
      and `addedAt`. */
  datatype Draft = Draft(
    title: string,
    link: string,
    kind: Kind,
    genre: string,
    season: Option<int>,
    episode: Option<int>,
    isTrending: Option<bool>,
    thumbnailUrl: Option<string>,
    embedId: Option<string>)
  {
    /** `{ ...draft, id, addedAt }`. */
    function Stamp(id: string, addedAt: string): (m: MediaItem)
      ensures m.id == id && m.addedAt == addedAt
      ensures m.Fields() == this
    {
      MediaItem(id, title, link, kind, genre, season, episode, addedAt, isTrending, thumbnailUrl, embedId)
    }
  }

  /** The errors the store throws to its callers. */
  datatype DataError =
    | NotAuthenticated  // "User not authenticated"
    | NotAdmin          // "Only admin can add trending movies"

  // ---------------------------------------------------------------------
  // Storage keys

  const WatchlistPrefix := "playHive_watchlist"
  const TrendingKey := "playHive_trending"

  /** `getUserWatchlistKey`: the local-partition key of a user's watchlist.
      It never coincides with the key of the remembered user or of the
      trending cache, so writing a watchlist touches neither. */
  function WatchlistKey(userId: string): (k: string)
    ensures k != TrendingKey && k != Auth.UserKey
    ensures |k| > |WatchlistPrefix| && k[|WatchlistPrefix|] == '_'
  {
    WatchlistPrefix + "_" + userId
  }

  /** Two users share a watchlist key exactly when they have the same id:
      the basis of per-user isolation. */
  lemma WatchlistKeyInjective(a: string, b: string)
    ensures WatchlistKey(a) == WatchlistKey(b) <==> a == b
  {
    var n := |WatchlistPrefix + "_"|;
    if WatchlistKey(a) == WatchlistKey(b) {
      assert a == WatchlistKey(a)[n..];
      assert b == WatchlistKey(b)[n..];
    }
  }

  /** What the fallback path of `getWatchlist` reads for a key: the stored
      list, or `[]` when the key is absent or its text does not parse. */
  function ReadList(m: map<string, Stored<seq<MediaItem>>>, key: string): seq<MediaItem>
  {
    if key in m && m[key].Parses? then m[key].value else []
  }

  /** Writing one user's watchlist leaves every other user's list as it was. */
  lemma OtherWatchlistUnchanged(m: map<string, Stored<seq<MediaItem>>>, owner: string, other: string,
                                v: Stored<seq<MediaItem>>)
    requires owner != other
    ensures ReadList(m[WatchlistKey(owner) := v], WatchlistKey(other)) == ReadList(m, WatchlistKey(other))
  {
    WatchlistKeyInjective(owner, other);
  }

  // ---------------------------------------------------------------------
  // Generated ids

  function Digit(d: nat): (c: char)
    requires d < 10
    ensures '0' <= c <= '9'
    ensures c as int - '0' as int == d
  {
    ('0' as int + d) as char
  }

  /** The decimal text of a natural number, as `${n}` renders `Date.now()`. */
  function Decimal(n: nat): (s: string)
    ensures |s| > 0
    ensures forall i :: 0 <= i < |s| ==> '0' <= s[i] <= '9'
    ensures |s| == 1 <==> n < 10
  {
    if n < 10 then [Digit(n)] else Decimal(n / 10) + [Digit(n % 10)]
  }

  /** Distinct numbers have distinct decimal texts. */
  lemma {:induction false} DecimalInjective(a: nat, b: nat)
    ensures Decimal(a) == Decimal(b) <==> a == b
  {
    if Decimal(a) == Decimal(b) && a >= 10 && b >= 10 {
      var s := Decimal(a);
      assert s[..|s| - 1] == Decimal(a / 10);
      assert s[..|s| - 1] == Decimal(b / 10);
      assert Digit(a % 10) == s[|s| - 1] == Digit(b % 10);
      DecimalInjective(a / 10, b / 10);
    } else if Decimal(a) == Decimal(b) && a < 10 && b < 10 {
      assert Decimal(a)[0] == Digit(a);
      assert Decimal(b)[0] == Digit(b);
    }
  }

  /** A time-based id `${type}-${Date.now()}`: what the fallback path of
      `addToWatchlist` gives a new item, and (with type movie) what
      `addTrendingMovie` gives a new trending movie. */
  function TimeId(kind: Kind, millis: nat): string
  {
    kind.Name() + "-" + Decimal(millis)
  }

  /** Time-based ids coincide exactly for the same type at the same
      millisecond: two additions of one type within one millisecond get the
      same id, and a later removal by that id removes both. */
  lemma TimeIdInjective(k1: Kind, m1: nat, k2: Kind, m2: nat)
    ensures TimeId(k1, m1) == TimeId(k2, m2) <==> k1 == k2 && m1 == m2
  {
    var a, b := TimeId(k1, m1), TimeId(k2, m2);
    if a == b {
      assert a[0] == k1.Name()[0] && b[0] == k2.Name()[0];
      if k1 == k2 {
        var n := |k1.Name() + "-"|;
        assert a[n..] == Decimal(m1);
        assert b[n..] == Decimal(m2);
        DecimalInjective(m1, m2);
      }
    }
  }

  // ---------------------------------------------------------------------
  // Watchlist algebra

  function IdIsNot(id: string): MediaItem -> bool
  {
    (m: MediaItem) => m.id != id
  }

  function GenreIs(genre: string): MediaItem -> bool
  {
    (m: MediaItem) => m.genre == genre
  }

  /** `watchlist.filter(item => item.id !== id)`. */
  function WithoutId(s: seq<MediaItem>, id: string): seq<MediaItem>
  {
    Filter(s, IdIsNot(id))
  }

  /** `watchlist.filter(item => item.genre === genre)`. */
  function ByGenre(s: seq<MediaItem>, genre: string): seq<MediaItem>
  {
    Filter(s, GenreIs(genre))
  }

  /** After a removal no item with that id is left, and every other item is. */
  lemma WithoutIdContents(s: seq<MediaItem>, id: string)
    ensures forall i :: 0 <= i < |WithoutId(s, id)| ==> WithoutId(s, id)[i].id != id
    ensures forall i :: 0 <= i < |s| && s[i].id != id ==> s[i] in WithoutId(s, id)
  {
  }

  /** Removing twice by the same id is removing once. */
  lemma WithoutIdIdempotent(s: seq<MediaItem>, id: string)
    ensures WithoutId(WithoutId(s, id), id) == WithoutId(s, id)
  {
    FilterIdempotent(s, IdIsNot(id));
  }

  /** Removing an id no item carries changes nothing. */
  lemma WithoutAbsentId(s: seq<MediaItem>, id: string)
    requires forall i :: 0 <= i < |s| ==> s[i].id != id
    ensures WithoutId(s, id) == s
  {
    FilterKeepsAll(s, IdIsNot(id));
  }

  /** Adding an item and then removing its id leaves the list as removing
      that id alone would have: the added item is gone, the order of the
      others kept. */
  lemma RemoveAfterAdd(s: seq<MediaItem>, m: MediaItem)
    ensures WithoutId(s + [m], m.id) == WithoutId(s, m.id)
  {
    FilterAppend(s, [m], IdIsNot(m.id));
    FilterSingleton(m, IdIsNot(m.id));
  }

  /** The items of a genre after an append: the old ones of that genre,
      followed by the new item when it has that genre. */
  lemma ByGenreAfterAdd(s: seq<MediaItem>, m: MediaItem, genre: string)
    ensures ByGenre(s + [m], genre) == ByGenre(s, genre) + (if m.genre == genre then [m] else [])
  {
    FilterAppend(s, [m], GenreIs(genre));
    FilterSingleton(m, GenreIs(genre));
  }

  /** Filtering by genre is exact: every item returned has the genre, and
      every item of the genre is returned. */
  lemma ByGenreContents(s: seq<MediaItem>, genre: string)
    ensures forall i :: 0 <= i < |ByGenre(s, genre)| ==> ByGenre(s, genre)[i].genre == genre
    ensures forall i :: 0 <= i < |s| && s[i].genre == genre ==> s[i] in ByGenre(s, genre)
  {
  }

  // ---------------------------------------------------------------------
  // Trending list

  /** The per-movie data of the built-in trending list. */
  datatype Listing = Listing(title: string, link: string, genre: string, thumbnail: string, embed: string)

  /** The data of built-in trending movie `movie-<n>`. */
  function SeedListing(n: nat): Listing
    requires 1 <= n <= 16
  {
    match n
    case 1 => Listing("Captain America: Brave New World", "https://example.com/captain-america", "Action", "/mov1.png", "1pHDWnXmK7Y")
    case 2 => Listing("Moana 2", "https://example.com/moana-2", "Animation", "/mov2.png", "hDZ7y8RP5HE")
    case 3 => Listing("Flight Risk", "https://example.com/flight-risk", "Thriller", "/mov3.png", "ojC9JBuccJA")
    case 4 => Listing("Kraven", "https://example.com/kraven", "Action", "/mov4.png", "rze8QYwWGMs")
    case 5 => Listing("Flow", "https://example.com/flow", "Animation", "/mov5.png", "ZgZccxuj2RY")
    case 6 => Listing("Sonic 3", "https://example.com/sonic-3", "Adventure", "/mov6.png", "qSu6i2iFMO0")
    case 7 => Listing("The Gorge", "https://example.com/the-gorge", "Horror", "/mov7.png", "rUSdnuOLebE")
    case 8 => Listing("Mufasa", "https://example.com/mufasa", "Animation", "/mov8.png", "o17MF9vnabg")
    case 9 => Listing("Snow White", "https://example.com/snow-white", "Fantasy", "/mov9.png", "iV46TJKL8cU")
    case 10 => Listing("The Electric State", "https://example.com/electric-state", "Science Fiction", "/mov10.png", "KpN98z8Kf5E")
    case 11 => Listing("Batman Ninja vs Yakuza League", "https://example.com/batman-ninja", "Animation", "/mov11.png", "QleeDtH_WWE")
    case 12 => Listing("Demon City", "https://example.com/demon-city", "Horror", "/mov12.png", "q-djvN7i5us")
    case 13 => Listing("Venom The Last Dance", "https://example.com/venom-last-dance", "Action", "/mov13.png", "__2bjWbetsA")
    case 14 => Listing("Cleaner", "https://example.com/cleaner", "Thriller", "/mov14.png", "y_EG0MxwAO4")
    case 15 => Listing("Popye The Slayer Man", "https://example.com/popeye-slayer", "Comedy", "/mov15.png", "CGO32Zmh2YI")
    case _ => Listing("Counter Strike", "https://example.com/counter-strike", "Action", "/mov16.png", "pEO34SeTsY0")
  }

  /** Built-in trending movie `movie-<n>`; `loadTime` is the
      `new Date().toISOString()` taken when the module loads. */
  function SeedItem(n: nat, loadTime: string): (m: MediaItem)
    requires 1 <= n <= 16
    ensures m.id == "movie-" + Decimal(n) && m.kind == Movie && m.isTrending == Some(true)
  {
    var l := SeedListing(n);
    MediaItem("movie-" + Decimal(n), l.title, l.link, Movie, l.genre, None, None, loadTime,
              Some(true), Some(l.thumbnail), Some(l.embed))
  }

  /** The sixteen built-in trending movies, `movie-1` to `movie-16`. */
  function SeedTrending(loadTime: string): (s: seq<MediaItem>)
    ensures |s| == 16
    ensures forall i :: 0 <= i < |s| ==>
      s[i].id == "movie-" + Decimal(i + 1) && s[i].kind == Movie && s[i].isTrending == Some(true)
  {
    seq(16, i requires 0 <= i < 16 => SeedItem(i + 1, loadTime))
  }

  /** The built-in trending movies have pairwise distinct ids. */
  lemma SeedIdsDistinct(loadTime: string)
    ensures forall i, j :: 0 <= i < j < |SeedTrending(loadTime)| ==>
      SeedTrending(loadTime)[i].id != SeedTrending(loadTime)[j].id
  {
    var s := SeedTrending(loadTime);
    forall i, j | 0 <= i < j < |s|
      ensures s[i].id != s[j].id
    {
      var p := "movie-";
      assert s[i].id[|p|..] == Decimal(i + 1);
      assert s[j].id[|p|..] == Decimal(j + 1);
      DecimalInjective(i + 1, j + 1);
    }
  }

  /** The start-up restore: the cached list replaces the seed only when the
      cached text parses to a non-empty array, so a non-empty seed yields a
      non-empty trending list. */
  function Restored(seed: seq<MediaItem>, cache: Option<Stored<seq<MediaItem>>>): (r: seq<MediaItem>)
    ensures r == seed || (cache == Some(Parses(r)) && r != [])
    ensures cache.Some? && cache.value.Parses? && cache.value.value != [] ==> r == cache.value.value
    ensures seed != [] ==> r != []
  {
    match cache
    case Some(Parses(saved)) => if saved != [] then saved else seed
    case _ => seed
  }

  /** An item `addTrendingMovie` creates: `{ ...draft, id: movie-<now>,
      addedAt, isTrending: true }`, whatever the draft said about trending. */
  function TrendingItem(draft: Draft, millis: nat, isoNow: string): (m: MediaItem)
    ensures m.id == TimeId(Movie, millis) && m.addedAt == isoNow && m.isTrending == Some(true)
    ensures m.Fields() == draft.(isTrending := Some(true))
  {
    draft.Stamp("movie-" + Decimal(millis), isoNow).(isTrending := Some(true))
  }

  /** `getAllGenres`: a fixed list of eight distinct genres, not derived
      from any stored item. */
  function AllGenres(): (g: seq<string>)
    ensures |g| == 8
    ensures forall i, j :: 0 <= i < j < |g| ==> g[i] != g[j]
  {
    ["Action", "Adventure", "Comedy", "Drama", "Fantasy", "Horror", "Science Fiction", "Thriller"]
  }

  /** The built-in trending list carries a genre the genre list does not
      offer: "Animation". */
  lemma SeedGenreNotOffered(loadTime: string)
    ensures exists i :: 0 <= i < |SeedTrending(loadTime)| && SeedTrending(loadTime)[i].genre !in AllGenres()
  {
    var s := SeedTrending(loadTime);
    assert s[1] == SeedItem(2, loadTime);
    assert s[1].genre == "Animation";
    assert "Animation" !in AllGenres();
  }

  // ---------------------------------------------------------------------
  // The store

  /** The state `data.ts` keeps: its fallback flag, the local partition's
      watchlist keys, the in-memory trending list and its cache key. The
      session layer it asks for the current user is `auth`; `browser`
      stands for `typeof window !== 'undefined'`. */
  class WatchlistStore {
    const auth: Auth.SessionManager
    const browser: bool
    var fallback: bool
    var watchlists: map<string, Stored<seq<MediaItem>>>
    var trending: seq<MediaItem>
    var trendingCache: Option<Stored<seq<MediaItem>>>

    /** The trending list is never empty. */
    ghost predicate Valid()
      reads this
    {
      trending != []
    }

    /** Module load: seed the trending list; in a browser set the flag and
        restore the cached trending list when it parses to a non-empty
        array. `stored` and `cache` are what the local partition holds. */
    constructor (auth: Auth.SessionManager, browser: bool, loadTime: string,
                 stored: map<string, Stored<seq<MediaItem>>>, cache: Option<Stored<seq<MediaItem>>>)
      ensures Valid()
      ensures this.auth == auth && this.browser == browser
      ensures fallback == browser
      ensures watchlists == stored && trendingCache == cache
      ensures trending == if browser then Restored(SeedTrending(loadTime), cache) else SeedTrending(loadTime)
    {
      this.auth := auth;
      this.browser := browser;
      watchlists := stored;
      trendingCache := cache;
      fallback := false;
      trending := SeedTrending(loadTime);
      if browser {
        fallback := true;
        if cache.Some? && cache.value.Parses? && |cache.value.value| > 0 {
          trending := cache.value.value;
        }
      }
    }

    /** The watchlist the fallback path shows for a user id. */
    function LocalWatchlist(userId: string): seq<MediaItem>
      reads this
    {
      ReadList(watchlists, WatchlistKey(userId))
    }

    /** `enableLocalStorageFallback`: one-way, idempotent. */
    method EnableFallback()
      modifies this`fallback
      ensures fallback
    {
      fallback := true;
    }

    /** `getWatchlist`; `db` is what the watchlist query answers when it is
        asked (only while the flag is unset), rows in the order the query
        returns them. */
    method GetWatchlist(db: Reply<MediaItem>) returns (items: seq<MediaItem>)
      modifies this`fallback
      ensures old(fallback) ==> fallback
      ensures auth.CurrentUser().None? ==> items == [] && fallback == old(fallback)
      ensures auth.CurrentUser().Some? && !old(fallback) && db.Answered? ==>
        items == db.rows && fallback == old(fallback)
      ensures auth.CurrentUser().Some? && (old(fallback) || db.Unavailable?) ==>
        fallback && items == LocalWatchlist(auth.CurrentUser().value.id)
    {
      var user := auth.CurrentUser();
      if user.None? {
        return [];
      }
      if !fallback {
        if db.Answered? {
          return db.rows;
        }
        fallback := true;
      }
      items := LocalWatchlist(user.value.id);
    }

    /** `addToWatchlist(draft)`; `freshId` is what `generateId` returns,
        `millis` and `isoNow` what `Date.now()` and `toISOString()` give,
        `db` what the insert answers when it is asked. */
    method AddToWatchlist(draft: Draft, freshId: string, millis: nat, isoNow: string, db: Reply<()>)
      returns (r: Result<MediaItem, DataError>)
      modifies this`fallback, this`watchlists
      ensures old(fallback) ==> fallback
      ensures auth.CurrentUser().None? ==>
        r == Failure(NotAuthenticated) && fallback == old(fallback) && watchlists == old(watchlists)
      ensures auth.CurrentUser().Some? && !old(fallback) && db.Answered? ==>
        r == Success(draft.Stamp(freshId, isoNow))
        && fallback == old(fallback) && watchlists == old(watchlists)
      ensures auth.CurrentUser().Some? && (old(fallback) || db.Unavailable?) ==>
        var owner := auth.CurrentUser().value.id;
        fallback
        && r == Success(draft.Stamp(TimeId(draft.kind, millis), isoNow))
        && watchlists == old(watchlists)[WatchlistKey(owner) := Parses(old(LocalWatchlist(owner)) + [r.value])]
        && LocalWatchlist(owner) == old(LocalWatchlist(owner)) + [r.value]
        && forall other :: other != owner ==> LocalWatchlist(other) == old(LocalWatchlist(other))
    {
      var user := auth.CurrentUser();
      if user.None? {
        return Failure(NotAuthenticated);
      }
      if !fallback {
        if db.Answered? {
          return Success(draft.Stamp(freshId, isoNow));
        }
        fallback := true;
      }
      var current := GetWatchlist(Unavailable);
      var item := draft.Stamp(TimeId(draft.kind, millis), isoNow);
      var owner := user.value.id;
      ghost var before := watchlists;
      watchlists := watchlists[WatchlistKey(owner) := Parses(current + [item])];
      forall other | other != owner
        ensures LocalWatchlist(other) == ReadList(before, WatchlistKey(other))
      {
        OtherWatchlistUnchanged(before, owner, other, Parses(current + [item]));
      }
      r := Success(item);
    }

    /** `removeFromWatchlist(id)`; `db` is what the delete answers when it
        is asked. */
    method RemoveFromWatchlist(id: string, db: Reply<()>) returns (r: Outcome<DataError>)
      modifies this`fallback, this`watchlists
      ensures old(fallback) ==> fallback
      ensures auth.CurrentUser().None? ==>
        r == Fail(NotAuthenticated) && fallback == old(fallback) && watchlists == old(watchlists)
      ensures auth.CurrentUser().Some? && !old(fallback) && db.Answered? ==>
        r == Pass && fallback == old(fallback) && watchlists == old(watchlists)
      ensures auth.CurrentUser().Some? && (old(fallback) || db.Unavailable?) ==>
        var owner := auth.CurrentUser().value.id;
        fallback && r == Pass
        && watchlists == old(watchlists)[WatchlistKey(owner) := Parses(WithoutId(old(LocalWatchlist(owner)), id))]
        && LocalWatchlist(owner) == WithoutId(old(LocalWatchlist(owner)), id)
        && forall other :: other != owner ==> LocalWatchlist(other) == old(LocalWatchlist(other))
    {
      var user := auth.CurrentUser();
      if user.None? {
        return Fail(NotAuthenticated);
      }
      if !fallback {
        if db.Answered? {
          return Pass;
        }
        fallback := true;
      }
      var current := GetWatchlist(Unavailable);
      var owner := user.value.id;
      ghost var before := watchlists;
      watchlists := watchlists[WatchlistKey(owner) := Parses(WithoutId(current, id))];
      forall other | other != owner
        ensures LocalWatchlist(other) == ReadList(before, WatchlistKey(other))
      {
        OtherWatchlistUnchanged(before, owner, other, Parses(WithoutId(current, id)));
      }
      r := Pass;
    }

    /** `getWatchlistByGenre(genre)`; `db` is what the filtered query
        answers when it is asked. */
    method GetWatchlistByGenre(genre: string, db: Reply<MediaItem>) returns (items: seq<MediaItem>)
      modifies this`fallback
      ensures old(fallback) ==> fallback
      ensures auth.CurrentUser().None? ==> items == [] && fallback == old(fallback)
      ensures auth.CurrentUser().Some? && !old(fallback) && db.Answered? ==>
        items == db.rows && fallback == old(fallback)
      ensures auth.CurrentUser().Some? && (old(fallback) || db.Unavailable?) ==>
        fallback && items == ByGenre(LocalWatchlist(auth.CurrentUser().value.id), genre)
    {
      var user := auth.CurrentUser();
      if user.None? {
        return [];
      }
      if !fallback {
        if db.Answered? {
          return db.rows;
        }
        fallback := true;
      }
      var all := GetWatchlist(Unavailable);
      items := ByGenre(all, genre);
    }

    /** `getTrendingMovies`: the current trending list, never empty. */
    function TrendingMovies(): (r: seq<MediaItem>)
      reads this
      requires Valid()
      ensures r != []
    {
      trending
    }

    /** `addTrendingMovie(draft)`: admins only; the new movie goes in front
        and, in a browser, the whole list is written to the cache key. */
    method AddTrendingMovie(draft: Draft, millis: nat, isoNow: string) returns (r: Result<MediaItem, DataError>)
      requires Valid()
      modifies this`trending, this`trendingCache
      ensures Valid()
      ensures !auth.IsAdmin() ==>
        r == Failure(NotAdmin) && trending == old(trending) && trendingCache == old(trendingCache)
      ensures auth.IsAdmin() ==>
        r == Success(TrendingItem(draft, millis, isoNow))
        && trending == [r.value] + old(trending)
        && trendingCache == if browser then Some(Parses(trending)) else old(trendingCache)
    {
      var user := auth.CurrentUser();
      if user.None? || !user.value.isAdmin {
        return Failure(NotAdmin);
      }
      var movie := TrendingItem(draft, millis, isoNow);
      trending := [movie] + trending;
      if browser {
        trendingCache := Some(Parses(trending));
      }
      r := Success(movie);
    }
  }
}
