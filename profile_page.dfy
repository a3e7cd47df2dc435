/** The profile page (app/profile/page.tsx): the views it derives from the
    session user and the stored listings, the total-views statistic, and
    removing a favourite, which rewrites both the stored users and the
    session copy. */
module ProfilePage {
  import opened SeqUtil
  import opened Types
  import opened Storage

  // ---------------------------------------------------------------------------
  // Derived views

  function OwnedBy(userId: string): Listing -> bool { (l: Listing) => l.userId == userId }

  function IdIn(ids: seq<string>): Listing -> bool { (l: Listing) => l.id in ids }

  function IdIsNot(id: string): Listing -> bool { (l: Listing) => l.id != id }

  function NotId(id: string): string -> bool { (x: string) => x != id }

  /** "My listings": the listings posted by `userId`, in collection order. */
  function MyListings(all: seq<Listing>, userId: string): seq<Listing>
  {
    Filter(all, OwnedBy(userId))
  }

  /** "Favourites": the stored listings whose id is among `favorites`, in
      collection order (not the order of `favorites`). */
  function FavoriteListings(all: seq<Listing>, favorites: seq<string>): seq<Listing>
  {
    Filter(all, IdIn(favorites))
  }

  /** A listing is among "my listings" exactly when it is stored and posted
      by the user; the view keeps collection order and multiplicities. */
  lemma MyListingsExactly(all: seq<Listing>, userId: string, l: Listing)
    ensures l in MyListings(all, userId) <==> l in all && l.userId == userId
    ensures multiset(MyListings(all, userId))[l] == if l.userId == userId then multiset(all)[l] else 0
    ensures Subsequence(MyListings(all, userId), all)
  {
    FilterCount(all, OwnedBy(userId), l);
    FilterIsSubsequence(all, OwnedBy(userId));
  }

  /** A listing is among the favourites exactly when it is stored and its id
      is a favourite; the view keeps collection order and multiplicities. */
  lemma FavoriteListingsExactly(all: seq<Listing>, favorites: seq<string>, l: Listing)
    ensures l in FavoriteListings(all, favorites) <==> l in all && l.id in favorites
    ensures multiset(FavoriteListings(all, favorites))[l] == if l.id in favorites then multiset(all)[l] else 0
    ensures Subsequence(FavoriteListings(all, favorites), all)
  {
    FilterCount(all, IdIn(favorites), l);
    FilterIsSubsequence(all, IdIn(favorites));
  }

  function L(id: string): Listing
  {
    Listing(id, "", "", 0, "", None, "", [], "", "", "", 0, 0, None, NoExtension)
  }

  /** The favourites view follows the collection, not the favourites list:
      favourites ["b", "a"] over listings a, b show a before b. */
  lemma FavoritesFollowCollectionOrder()
    ensures FavoriteListings([L("a"), L("b")], ["b", "a"]) == [L("a"), L("b")]
  {
    var s := [L("a"), L("b")];
    assert s[1..] == [L("b")];
    assert IdIn(["b", "a"])(L("a")) && IdIn(["b", "a"])(L("b"));
  }

  // ---------------------------------------------------------------------------
  // Total views: `userListings.reduce((sum, l) => sum + l.views, 0)`

  function TotalViews(ls: seq<Listing>): int
  {
    if ls == [] then 0 else TotalViews(ls[..|ls| - 1]) + ls[|ls| - 1].views
  }

  /** The total splits over concatenation. */
  lemma {:induction false} TotalViewsAppend(a: seq<Listing>, b: seq<Listing>)
    ensures TotalViews(a + b) == TotalViews(a) + TotalViews(b)
    decreases |b|
  {
    if b != [] {
      var ab := a + b;
      assert ab[..|ab| - 1] == a + b[..|b| - 1];
      assert ab[|ab| - 1] == b[|b| - 1];
      TotalViewsAppend(a, b[..|b| - 1]);
      assert TotalViews(ab) == TotalViews(a + b[..|b| - 1]) + b[|b| - 1].views;
      assert TotalViews(b) == TotalViews(b[..|b| - 1]) + b[|b| - 1].views;
    } else {
      assert a + b == a;
    }
  }

  /** The total is the first listing's views plus the rest's total. */
  lemma TotalViewsCons(l: Listing, ls: seq<Listing>)
    ensures TotalViews([l] + ls) == l.views + TotalViews(ls)
  {
    TotalViewsAppend([l], ls);
  }

  /** With no negative view counts, the total bounds each listing's count. */
  lemma {:induction false} TotalViewsBounds(ls: seq<Listing>, i: int)
    requires forall j :: 0 <= j < |ls| ==> ls[j].views >= 0
    requires 0 <= i < |ls|
    ensures 0 <= ls[i].views <= TotalViews(ls)
    decreases |ls|
  {
    var init := ls[..|ls| - 1];
    TotalViewsNonNegative(init);
    if i < |ls| - 1 {
      TotalViewsBounds(init, i);
    }
  }

  lemma {:induction false} TotalViewsNonNegative(ls: seq<Listing>)
    requires forall j :: 0 <= j < |ls| ==> ls[j].views >= 0
    ensures TotalViews(ls) >= 0
    decreases |ls|
  {
    if ls != [] {
      TotalViewsNonNegative(ls[..|ls| - 1]);
    }
  }

  // ---------------------------------------------------------------------------
  // Removing a favourite

  /** `favorites.filter((id) => id !== listingId)`. */
  function RemoveFavorite(favorites: seq<string>, listingId: string): seq<string>
  {
    Filter(favorites, NotId(listingId))
  }

  /** Removal deletes every occurrence of the id and keeps every other id,
      with its multiplicity, in the original order. */
  lemma RemoveFavoriteExactly(favorites: seq<string>, listingId: string, x: string)
    ensures listingId !in RemoveFavorite(favorites, listingId)
    ensures x != listingId ==> multiset(RemoveFavorite(favorites, listingId))[x] == multiset(favorites)[x]
    ensures Subsequence(RemoveFavorite(favorites, listingId), favorites)
  {
    FilterCount(favorites, NotId(listingId), listingId);
    FilterCount(favorites, NotId(listingId), x);
    FilterIsSubsequence(favorites, NotId(listingId));
  }

  /** Removing the same id twice gives the favourites removing it once gives. */
  lemma RemoveFavoriteIdempotent(favorites: seq<string>, listingId: string)
    ensures RemoveFavorite(RemoveFavorite(favorites, listingId), listingId) == RemoveFavorite(favorites, listingId)
  {
    FilterIdempotent(favorites, NotId(listingId));
  }

  /** `users.map((u) => (u.id === id ? updated : u))`: every user with the id
      is replaced by `updated`, every other user is left in place. */
  function ReplaceUser(users: seq<User>, id: string, updated: User): (r: seq<User>)
    ensures |r| == |users|
    ensures forall i :: 0 <= i < |users| && users[i].id == id ==> r[i] == updated
    ensures forall i :: 0 <= i < |users| && users[i].id != id ==> r[i] == users[i]
  {
    if users == [] then []
    else [if users[0].id == id then updated else users[0]] + ReplaceUser(users[1..], id, updated)
  }

  /** What `handleRemoveFavorite` did, or that it had no session to act on. */
  datatype RemoveOutcome = Removed(updated: User) | NoSession

  /** The page's state: the session copy it loaded and the two views. */
  class Profile {
    var currentUser: Option<User>
    var userListings: seq<Listing>
    var favoriteListings: seq<Listing>

    constructor ()
      ensures currentUser == None && userListings == [] && favoriteListings == []
    {
      currentUser := None;
      userListings := [];
      favoriteListings := [];
    }

    /** The load effect: without a session nothing is derived (the page
        redirects); with one, the session user, their listings and their
        favourites are read from the store. */
    method Load(store: Store) returns (signedIn: bool)
      requires store.Valid()
      modifies this
      ensures signedIn <==> store.StoredCurrentUser().Some?
      ensures !signedIn ==> currentUser == old(currentUser) && userListings == old(userListings)
                            && favoriteListings == old(favoriteListings)
      ensures signedIn ==>
        && currentUser == store.StoredCurrentUser()
        && userListings == MyListings(store.StoredListings(), currentUser.value.id)
        && favoriteListings == FavoriteListings(store.StoredListings(), currentUser.value.favorites)
    {
      var user := store.GetCurrentUser();
      if user.None? {
        return false;
      }
      currentUser := user;
      var all := store.GetListings();
      userListings := MyListings(all, user.value.id);
      favoriteListings := FavoriteListings(all, user.value.favorites);
      signedIn := true;
    }

    /** `handleRemoveFavorite`: without a session nothing changes. With one,
        the session copy loses every occurrence of the id; in the stored
        users every user with the session's id is replaced by that copy and
        every other user is unchanged; the store's session becomes that copy;
        and the favourites view drops the listings with that id. */
    method HandleRemoveFavorite(store: Store, listingId: string) returns (outcome: RemoveOutcome)
      requires store.Valid()
      modifies this, store
      ensures store.Valid()
      ensures old(currentUser).None? ==>
        && outcome == NoSession && store.entries == old(store.entries)
        && currentUser == old(currentUser) && favoriteListings == old(favoriteListings)
      ensures old(currentUser).Some? ==>
        && outcome == Removed(old(currentUser).value.(favorites := RemoveFavorite(old(currentUser).value.favorites, listingId)))
        && currentUser == Some(outcome.updated)
        && favoriteListings == Filter(old(favoriteListings), IdIsNot(listingId))
        && (store.inBrowser ==>
              && store.entries == old(store.entries)
                   [UsersKey := UsersEntry(ReplaceUser(old(store.StoredUsers()), outcome.updated.id, outcome.updated))]
                   [CurrentUserKey := UserEntry(outcome.updated)]
              && store.StoredUsers() == ReplaceUser(old(store.StoredUsers()), outcome.updated.id, outcome.updated)
              && store.StoredCurrentUser() == Some(outcome.updated)
              && store.StoredListings() == old(store.StoredListings()))
        && (!store.inBrowser ==> store.entries == old(store.entries))
      ensures userListings == old(userListings)
    {
      if currentUser.None? {
        return NoSession;
      }
      var current := currentUser.value;
      var updated := current.(favorites := RemoveFavorite(current.favorites, listingId));
      var users := store.GetUsers();
      store.SetUsers(ReplaceUser(users, current.id, updated));
      store.SetCurrentUser(Some(updated));
      currentUser := Some(updated);
      favoriteListings := Filter(favoriteListings, IdIsNot(listingId));
      outcome := Removed(updated);
    }
  }

  /** After a removal the stored record of the session user and the session
      copy agree, and every other stored user is as it was. */
  lemma RemovalKeepsSessionInStep(users: seq<User>, current: User, listingId: string, i: int)
    requires 0 <= i < |users|
    ensures var updated := current.(favorites := RemoveFavorite(current.favorites, listingId));
      var r := ReplaceUser(users, current.id, updated);
      && (r[i].id == current.id ==> r[i] == updated && listingId !in r[i].favorites)
      && (users[i].id != current.id ==> r[i] == users[i])
  {
    var updated := current.(favorites := RemoveFavorite(current.favorites, listingId));
    RemoveFavoriteExactly(current.favorites, listingId, listingId);
    assert ReplaceUser(users, current.id, updated)[i].id == current.id ==> users[i].id == current.id;
  }
}
