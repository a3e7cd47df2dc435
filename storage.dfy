/** The persistence adapter (lib/storage.ts): the browser's key-value
    store, holding whole collections under fixed keys. Serialisation is the
    identity, so an entry holds the value that was written. Outside a
    browser context every read yields the empty value and every write is
    ignored. */
module Storage {
  import opened SeqUtil
  import opened Types

  /** The keys the application writes: the three of the storage object and
      the one the locale provider writes directly. */
  datatype Key = ListingsKey | UsersKey | CurrentUserKey | LocaleKey

  datatype Entry =
    | ListingsEntry(listings: seq<Listing>)
    | UsersEntry(users: seq<User>)
    | UserEntry(user: User)
    | LocaleEntry(locale: string)

  /** Each key holds the kind of value that is written under it. */
  predicate WellTyped(m: map<Key, Entry>)
  {
    && (ListingsKey in m ==> m[ListingsKey].ListingsEntry?)
    && (UsersKey in m ==> m[UsersKey].UsersEntry?)
    && (CurrentUserKey in m ==> m[CurrentUserKey].UserEntry?)
    && (LocaleKey in m ==> m[LocaleKey].LocaleEntry?)
  }

  class Store {
    /** Whether the code runs in a browser (`typeof window !== "undefined"`). */
    const inBrowser: bool
    var entries: map<Key, Entry>

    ghost predicate Valid()
      reads this
    {
      WellTyped(entries)
    }

    constructor (inBrowser: bool, initial: map<Key, Entry>)
      requires WellTyped(initial)
      ensures Valid()
      ensures this.inBrowser == inBrowser && entries == initial
    {
      this.inBrowser := inBrowser;
      entries := initial;
    }

    /** What `getListings` reads: the stored collection, or [] when absent
        or outside a browser. */
    function StoredListings(): seq<Listing>
      reads this
      requires Valid()
    {
      if inBrowser && ListingsKey in entries then entries[ListingsKey].listings else []
    }

    function StoredUsers(): seq<User>
      reads this
      requires Valid()
    {
      if inBrowser && UsersKey in entries then entries[UsersKey].users else []
    }

    function StoredCurrentUser(): Option<User>
      reads this
      requires Valid()
    {
      if inBrowser && CurrentUserKey in entries then Some(entries[CurrentUserKey].user) else None
    }

    method GetListings() returns (xs: seq<Listing>)
      requires Valid()
      ensures xs == StoredListings()
      ensures (!inBrowser || ListingsKey !in entries) ==> xs == []
    {
      if !inBrowser { return []; }
      if ListingsKey in entries {
        xs := entries[ListingsKey].listings;
      } else {
        xs := [];
      }
    }

    method SetListings(xs: seq<Listing>)
      requires Valid()
      modifies this
      ensures Valid()
      ensures inBrowser ==> entries == old(entries)[ListingsKey := ListingsEntry(xs)]
      ensures !inBrowser ==> entries == old(entries)
      ensures inBrowser ==> StoredListings() == xs
    {
      if !inBrowser { return; }
      entries := entries[ListingsKey := ListingsEntry(xs)];
    }

    method GetUsers() returns (us: seq<User>)
      requires Valid()
      ensures us == StoredUsers()
      ensures (!inBrowser || UsersKey !in entries) ==> us == []
    {
      if !inBrowser { return []; }
      if UsersKey in entries {
        us := entries[UsersKey].users;
      } else {
        us := [];
      }
    }

    method SetUsers(us: seq<User>)
      requires Valid()
      modifies this
      ensures Valid()
      ensures inBrowser ==> entries == old(entries)[UsersKey := UsersEntry(us)]
      ensures !inBrowser ==> entries == old(entries)
      ensures inBrowser ==> StoredUsers() == us
    {
      if !inBrowser { return; }
      entries := entries[UsersKey := UsersEntry(us)];
    }

    method GetCurrentUser() returns (u: Option<User>)
      requires Valid()
      ensures u == StoredCurrentUser()
      ensures (!inBrowser || CurrentUserKey !in entries) ==> u == None
    {
      if !inBrowser { return None; }
      if CurrentUserKey in entries {
        u := Some(entries[CurrentUserKey].user);
      } else {
        u := None;
      }
    }

    /** Stores the session user, or removes the session key for null. */
    method SetCurrentUser(u: Option<User>)
      requires Valid()
      modifies this
      ensures Valid()
      ensures inBrowser && u.Some? ==> entries == old(entries)[CurrentUserKey := UserEntry(u.value)]
      ensures inBrowser && u.None? ==> entries == old(entries) - {CurrentUserKey}
      ensures !inBrowser ==> entries == old(entries)
      ensures inBrowser ==> StoredCurrentUser() == u
    {
      if !inBrowser { return; }
      if u.Some? {
        entries := entries[CurrentUserKey := UserEntry(u.value)];
      } else {
        entries := entries - {CurrentUserKey};
      }
    }

    /** Ends the session: only the session key is removed. */
    method Logout()
      requires Valid()
      modifies this
      ensures Valid()
      ensures inBrowser ==> entries == old(entries) - {CurrentUserKey}
      ensures !inBrowser ==> entries == old(entries)
      ensures StoredCurrentUser() == None
      ensures StoredListings() == old(StoredListings()) && StoredUsers() == old(StoredUsers())
    {
      if !inBrowser { return; }
      entries := entries - {CurrentUserKey};
    }

    /** `localStorage.getItem("locale")`, read directly by the locale provider. */
    method GetLocaleItem() returns (l: Option<string>)
      requires Valid()
      ensures LocaleKey in entries ==> l == Some(entries[LocaleKey].locale)
      ensures LocaleKey !in entries ==> l == None
    {
      if LocaleKey in entries {
        l := Some(entries[LocaleKey].locale);
      } else {
        l := None;
      }
    }

    /** `localStorage.setItem("locale", l)`, written directly by the locale provider. */
    method SetLocaleItem(l: string)
      requires Valid()
      modifies this
      ensures Valid()
      ensures entries == old(entries)[LocaleKey := LocaleEntry(l)]
    {
      entries := entries[LocaleKey := LocaleEntry(l)];
    }
  }

  /** A write followed by a read gives back what was written, and leaves
      the other collections as they were. */
  method ListingsRoundTrip(s: Store, xs: seq<Listing>) returns (ys: seq<Listing>)
    requires s.Valid() && s.inBrowser
    modifies s
    ensures s.Valid() && ys == xs
    ensures s.StoredUsers() == old(s.StoredUsers())
    ensures s.StoredCurrentUser() == old(s.StoredCurrentUser())
  {
    s.SetListings(xs);
    ys := s.GetListings();
  }

  method UsersRoundTrip(s: Store, us: seq<User>) returns (vs: seq<User>)
    requires s.Valid() && s.inBrowser
    modifies s
    ensures s.Valid() && vs == us
    ensures s.StoredListings() == old(s.StoredListings())
    ensures s.StoredCurrentUser() == old(s.StoredCurrentUser())
  {
    s.SetUsers(us);
    vs := s.GetUsers();
  }

  method CurrentUserRoundTrip(s: Store, u: Option<User>) returns (v: Option<User>)
    requires s.Valid() && s.inBrowser
    modifies s
    ensures s.Valid() && v == u
    ensures s.StoredListings() == old(s.StoredListings())
    ensures s.StoredUsers() == old(s.StoredUsers())
  {
    s.SetCurrentUser(u);
    v := s.GetCurrentUser();
  }
}
