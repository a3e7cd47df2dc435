/** Sign-in and registration (app/auth/page.tsx): a credential lookup over
    the stored users, the ordered registration checks, and the two writes a
    successful registration makes. The clock readings a registration takes
    (the id's millisecond count and the creation-time text) are parameters. */
module AuthPage {
  import opened SeqUtil
  import opened Types
  import opened Storage

  datatype LoginData = LoginData(email: string, password: string)

  datatype RegisterData = RegisterData(
    name: string,
    email: string,
    phone: string,
    password: string,
    confirmPassword: string)

  /** The shortest password registration accepts. */
  const MinPasswordLength := 6

  // ---------------------------------------------------------------------------
  // Login

  function CredentialsAre(email: string, password: string): User -> bool
  {
    (u: User) => u.email == email && u.password == password
  }

  /** `users.find((u) => u.email === email && u.password === password)`: the
      first user with exactly that email and password. */
  function FindByCredentials(users: seq<User>, email: string, password: string): (r: Option<User>)
    ensures r.Some? <==> exists i :: 0 <= i < |users| && users[i].email == email && users[i].password == password
    ensures r.Some? ==> exists i :: 0 <= i < |users| && users[i] == r.value && r.value.email == email
                                    && r.value.password == password
                                    && forall j :: 0 <= j < i ==> !(users[j].email == email && users[j].password == password)
  {
    match FindIndex(users, CredentialsAre(email, password))
    case None => None
    case Some(i) => Some(users[i])
  }

  datatype LoginOutcome = LoggedIn(user: User) | BadCredentials

  /** `handleLogin`: on a match the first matching user becomes the session
      user; otherwise nothing is written. */
  method HandleLogin(store: Store, data: LoginData) returns (outcome: LoginOutcome)
    requires store.Valid()
    modifies store
    ensures store.Valid()
    ensures outcome.LoggedIn? <==> FindByCredentials(old(store.StoredUsers()), data.email, data.password).Some?
    ensures outcome.LoggedIn? ==>
      && outcome.user == FindByCredentials(old(store.StoredUsers()), data.email, data.password).value
      && store.entries == old(store.entries)[CurrentUserKey := UserEntry(outcome.user)]
    ensures outcome.BadCredentials? ==> store.entries == old(store.entries)
  {
    var users := store.GetUsers();
    var user := FindByCredentials(users, data.email, data.password);
    if user.Some? {
      store.SetCurrentUser(user);
      outcome := LoggedIn(user.value);
    } else {
      outcome := BadCredentials;
    }
  }

  // ---------------------------------------------------------------------------
  // Registration

  function EmailIs(email: string): User -> bool { (u: User) => u.email == email }

  /** The result of the registration checks, in the order the handler makes
      them. */
  datatype Check = Accepted | PasswordMismatch | PasswordTooShort | EmailTaken

  /** The checks of `handleRegister`: the confirmation first, then the length,
      then whether a stored user already has the email. The first failure
      decides. */
  function CheckRegistration(data: RegisterData, users: seq<User>): (c: Check)
    ensures c == PasswordMismatch <==> data.password != data.confirmPassword
    ensures c == PasswordTooShort <==> data.password == data.confirmPassword && |data.password| < MinPasswordLength
    ensures c == EmailTaken <==>
      && data.password == data.confirmPassword && |data.password| >= MinPasswordLength
      && exists i :: 0 <= i < |users| && users[i].email == data.email
    ensures c == Accepted ==> forall i :: 0 <= i < |users| ==> users[i].email != data.email
  {
    if data.password != data.confirmPassword then PasswordMismatch
    else if |data.password| < MinPasswordLength then PasswordTooShort
    else if Find(users, EmailIs(data.email)).Some? then EmailTaken
    else Accepted
  }

  /** The account a registration creates: its id is the decimal text of the
      clock reading, and it starts with no favourites. */
  function NewUser(data: RegisterData, now: int, createdAt: string): (u: User)
    ensures ParseNumber(u.id) == Some(now as real)
    ensures u.name == data.name && u.email == data.email && u.phone == data.phone
    ensures u.password == data.password && u.createdAt == createdAt
    ensures u.favorites == []
  {
    ParseShowRoundTrip(now);
    User(ShowNumber(now), data.name, data.email, data.phone, data.password, createdAt, [])
  }

  datatype RegisterOutcome = Registered(user: User) | Refused(reason: Check)

  /** `handleRegister` at clock reading `now`. A failed check writes nothing.
      Otherwise the new user is appended to the stored users, which keep
      their order, and becomes the session user. */
  method HandleRegister(store: Store, data: RegisterData, now: int, createdAt: string)
    returns (outcome: RegisterOutcome)
    requires store.Valid()
    modifies store
    ensures store.Valid()
    ensures var c := CheckRegistration(data, old(store.StoredUsers()));
      && (c != Accepted ==> outcome == Refused(c) && store.entries == old(store.entries))
      && (c == Accepted ==> outcome == Registered(NewUser(data, now, createdAt)))
    ensures outcome.Registered? && store.inBrowser ==>
      && store.entries == old(store.entries)[UsersKey := UsersEntry(old(store.StoredUsers()) + [outcome.user])]
                                           [CurrentUserKey := UserEntry(outcome.user)]
      && store.StoredUsers() == old(store.StoredUsers()) + [outcome.user]
      && store.StoredCurrentUser() == Some(outcome.user)
    ensures outcome.Registered? && !store.inBrowser ==> store.entries == old(store.entries)
  {
    if data.password != data.confirmPassword {
      return Refused(PasswordMismatch);
    }
    if |data.password| < MinPasswordLength {
      return Refused(PasswordTooShort);
    }
    var users := store.GetUsers();
    var existing := Find(users, EmailIs(data.email));
    if existing.Some? {
      return Refused(EmailTaken);
    }
    var user := NewUser(data, now, createdAt);
    store.SetUsers(users + [user]);
    store.SetCurrentUser(Some(user));
    outcome := Registered(user);
  }

  // ---------------------------------------------------------------------------
  // Properties

  /** No two stored users share an email. */
  predicate EmailsDistinct(users: seq<User>)
  {
    forall i, j :: 0 <= i < j < |users| ==> users[i].email != users[j].email
  }

  /** An accepted registration keeps stored emails pairwise distinct. */
  lemma RegistrationKeepsEmailsDistinct(users: seq<User>, data: RegisterData, now: int, createdAt: string)
    requires EmailsDistinct(users)
    requires CheckRegistration(data, users) == Accepted
    ensures EmailsDistinct(users + [NewUser(data, now, createdAt)])
  {
    var u := NewUser(data, now, createdAt);
    var r := users + [u];
    forall i, j | 0 <= i < j < |r| ensures r[i].email != r[j].email {
      if j == |users| {
        assert r[i] == users[i] && r[j] == u;
      } else {
        assert r[i] == users[i] && r[j] == users[j];
      }
    }
  }

  /** Signing in with the credentials just registered finds the new account:
      no earlier user has its email. */
  lemma LoginAfterRegistration(users: seq<User>, data: RegisterData, now: int, createdAt: string)
    requires CheckRegistration(data, users) == Accepted
    ensures FindByCredentials(users + [NewUser(data, now, createdAt)], data.email, data.password)
         == Some(NewUser(data, now, createdAt))
  {
    var u := NewUser(data, now, createdAt);
    var r := users + [u];
    assert r[|users|] == u;
    var found := FindByCredentials(r, data.email, data.password);
    var i :| 0 <= i < |r| && r[i] == found.value && found.value.email == data.email
             && forall j :: 0 <= j < i ==> !(r[j].email == data.email && r[j].password == data.password);
  }

  /** A password of five characters fails the length check and one of six
      passes it (given matching confirmation and a free email). */
  lemma PasswordLengthBoundary(users: seq<User>, name: string, email: string, phone: string)
    requires forall i :: 0 <= i < |users| ==> users[i].email != email
    ensures CheckRegistration(RegisterData(name, email, phone, "12345", "12345"), users) == PasswordTooShort
    ensures CheckRegistration(RegisterData(name, email, phone, "123456", "123456"), users) == Accepted
  {
  }

  /** Registering an email that is already stored is refused, whatever the
      passwords, once the passwords match and are long enough. */
  lemma DuplicateEmailRefused(users: seq<User>, data: RegisterData, i: int)
    requires 0 <= i < |users| && users[i].email == data.email
    requires data.password == data.confirmPassword && |data.password| >= MinPasswordLength
    ensures CheckRegistration(data, users) == EmailTaken
  {
  }
}
