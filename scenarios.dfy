/** Clients of the session manager and the store that string operations
    together, the way the pages do, and show what a caller can rely on from
    the contracts alone. */
module Scenarios {
  import opened Storage
  import opened Auth
  import opened Data

  /** Registering a fresh e-mail in fallback mode signs the new user in. */
  method RegisterSignsIn(m: SessionManager, email: string, password: string, name: string, freshId: string)
    returns (r: Result<User, AuthError>)
    requires m.fallback
    requires email != "" && password != "" && name != ""
    requires m.localSlot.None? || (m.localSlot.value.Parses? && m.localSlot.value.value.email != email)
    modifies m
    ensures r == Success(User(freshId, name, email, false))
    ensures m.CurrentUser() == Some(User(freshId, name, email, false)) && m.IsAuthenticated() && !m.IsAdmin()
  {
    r := m.Register(email, password, password, name, freshId, Unavailable, Unavailable);
  }

  /** Mismatched passwords create no user and leave the current user as it was. */
  method MismatchChangesNothing(m: SessionManager, email: string, password: string, confirm: string,
                                name: string, freshId: string, lookup: Reply<string>, insert: Reply<()>)
    returns (r: Result<User, AuthError>)
    requires email != "" && password != "" && name != "" && password != confirm
    modifies m
    ensures r == Failure(PasswordMismatch)
    ensures m.CurrentUser() == old(m.CurrentUser()) && m.fallback == old(m.fallback)
  {
    r := m.Register(email, password, confirm, name, freshId, lookup, insert);
  }

  /** The admin pair yields an admin session whatever the mode and whatever
      the database would have answered. */
  method AdminInEveryMode(m: SessionManager, db: Reply<User>) returns (r: Result<User, AuthError>)
    modifies m
    ensures r == Success(AdminUser) && m.IsAdmin() && m.fallback == old(m.fallback)
  {
    r := m.Login(AdminEmail, AdminPassword, db);
  }

  /** After logout nobody is signed in, so the store refuses to add. */
  method LogoutThenAddRefused(store: WatchlistStore, draft: Draft, freshId: string, millis: nat,
                              isoNow: string, db: Reply<()>)
    returns (r: Result<MediaItem, DataError>)
    modifies store, store.auth
    ensures r == Failure(NotAuthenticated)
    ensures store.watchlists == old(store.watchlists)
  {
    store.auth.Logout();
    r := store.AddToWatchlist(draft, freshId, millis, isoNow, db);
  }

  /** In fallback mode, adding an item and then removing it by the id it
      was given leaves no item with that id in the watchlist. */
  method AddThenRemove(store: WatchlistStore, draft: Draft, millis: nat, isoNow: string)
    returns (items: seq<MediaItem>, added: MediaItem)
    requires store.fallback && store.auth.CurrentUser().Some?
    modifies store
    ensures forall i :: 0 <= i < |items| ==> items[i].id != added.id
    ensures items == WithoutId(old(store.LocalWatchlist(store.auth.CurrentUser().value.id)), added.id)
  {
    var r := store.AddToWatchlist(draft, "", millis, isoNow, Unavailable);
    added := r.value;
    var _ := store.RemoveFromWatchlist(added.id, Unavailable);
    items := store.GetWatchlist(Unavailable);
    RemoveAfterAdd(old(store.LocalWatchlist(store.auth.CurrentUser().value.id)), added);
    WithoutIdContents(items, added.id);
    WithoutIdIdempotent(old(store.LocalWatchlist(store.auth.CurrentUser().value.id)), added.id);
  }

  /** A series added with a season and an episode is stored with both, at
      the end of the watchlist. */
  method SeriesKeepsSeasonAndEpisode(store: WatchlistStore, title: string, link: string, genre: string,
                                     millis: nat, isoNow: string)
    returns (stored: MediaItem)
    requires store.fallback && store.auth.CurrentUser().Some?
    modifies store
    ensures stored.kind == Series && stored.season == Some(2) && stored.episode == Some(5)
    ensures var list := store.LocalWatchlist(store.auth.CurrentUser().value.id);
            list != [] && list[|list| - 1] == stored
  {
    var draft := Draft(title, link, Series, genre, Some(2), Some(5), None, None, None);
    var r := store.AddToWatchlist(draft, "", millis, isoNow, Unavailable);
    stored := r.value;
  }

  /** What one user adds in fallback mode never shows in another user's
      watchlist: after the first user logs out and a second registers, the
      second user's watchlist is what it was before the addition. */
  method OtherUserDoesNotSee(store: WatchlistStore, draft: Draft, millis: nat, isoNow: string,
                             email: string, password: string, name: string, otherId: string)
    returns (seen: seq<MediaItem>)
    requires store.fallback && store.auth.fallback
    requires store.auth.CurrentUser().Some? && store.auth.CurrentUser().value.id != otherId
    requires email != "" && password != "" && name != ""
    modifies store, store.auth
    ensures seen == old(store.LocalWatchlist(otherId))
  {
    var _ := store.AddToWatchlist(draft, "", millis, isoNow, Unavailable);
    store.auth.Logout();
    var who := store.auth.Register(email, password, password, name, otherId, Unavailable, Unavailable);
    seen := store.GetWatchlist(Unavailable);
  }
}
