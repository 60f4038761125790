/**
 * The sign-in state: the accounts under "taskflow_users_v1", the session
 * under "taskflow_session_v1", the last credentials under
 * "taskflow_last_cred_v1"; registering, logging in and out, and the user
 * record the pages show.
 */
module Auth {
  import opened Wrappers
  import opened Strings
  import opened Lists

  const UsersKey: string := "taskflow_users_v1"
  const SessionKey: string := "taskflow_session_v1"
  const LastCredKey: string := "taskflow_last_cred_v1"

  /** A registered account; the password is kept as typed. */
  datatype Account = Account(id: string, username: string, password: string, fullName: string, createdAt: int)

  /** The session; an old session has an empty `userId`. */
  datatype Session = Session(userId: string, username: string, loggedInAt: int)

  datatype Cred = Cred(username: string, password: string)

  /** `{ ok, message }`. */
  datatype Outcome = Outcome(ok: bool, message: string)

  /** The user the pages see; `id` is `None` for `null`. */
  datatype User = User(id: Option<string>, username: string, displayName: string, initials: string)

  // ---------------------------------------------------------------- initials

  /** `split(" ").filter(Boolean)`: the pieces between single blanks, empty ones dropped, in order. */
  function Words(s: string): (r: seq<string>)
    ensures forall k :: 0 <= k < |r| ==> r[k] != []
  {
    Filter(Split(s, ' '), (w: string) => w != [])
  }

  /** The first letter of each word, upper-cased. */
  function FirstLetters(words: seq<string>): (r: string)
    requires forall k :: 0 <= k < |words| ==> words[k] != []
    ensures |r| == |words|
    ensures forall k :: 0 <= k < |words| ==> r[k] == UpperChar(words[k][0])
  {
    seq(|words|, k requires 0 <= k < |words| => UpperChar(words[k][0]))
  }

  /** `initialsFrom`: the first letters of the first two words, or "AR" for a name without words. */
  function InitialsFrom(name: string): (r: string)
    ensures 1 <= |r| <= 2
    ensures Words(Trim(name)) == [] ==> r == "AR"
    ensures Words(Trim(name)) != [] ==> r[0] == UpperChar(Words(Trim(name))[0][0])
    ensures var ws := Words(Trim(name));
      ws != [] ==> |r| == (if |ws| < 2 then |ws| else 2) && forall k :: 0 <= k < |r| ==> r[k] == UpperChar(ws[k][0])
  {
    var ws := Words(Trim(name));
    var parts := if |ws| < 2 then ws else ws[..2];
    assert |parts| == (if |ws| < 2 then |ws| else 2);
    assert forall k :: 0 <= k < |parts| ==> parts[k] == ws[k];
    var inits := FirstLetters(parts);
    if inits == [] then "AR" else inits
  }

  // ---------------------------------------------------------------- finding an account

  /** `Array.prototype.find`: the first element that passes, if any. */
  function FindFirst<T(==)>(s: seq<T>, p: T -> bool): (r: Option<T>)
    ensures r.None? <==> forall k :: 0 <= k < |s| ==> !p(s[k])
    ensures r.Some? ==> exists k :: 0 <= k < |s| && s[k] == r.value && p(s[k]) && forall j :: 0 <= j < k ==> !p(s[j])
    decreases |s|
  {
    if s == [] then None
    else if p(s[0]) then Some(s[0])
    else FindFirst(s[1..], p)
  }

  /** Usernames compare without regard to case. */
  predicate SameName(a: string, b: string) { Lower(a) == Lower(b) }

  function NamedLike(name: string): Account -> bool
  {
    (x: Account) => SameName(x.username, name)
  }

  function WithId(id: string): Account -> bool
  {
    (x: Account) => x.id == id
  }

  /** The first account to match goes first: an account in front is found whatever follows. */
  lemma FindFront<T>(x: T, s: seq<T>, p: T -> bool)
    requires p(x)
    ensures FindFirst([x] + s, p) == Some(x)
  {
  }

  // ---------------------------------------------------------------- the user shown

  /** `String(x || "").trim() || …`: the first candidate that is not blank once trimmed. */
  function FirstFilled(cands: seq<string>, last: string): (r: string)
    ensures (forall k :: 0 <= k < |cands| ==> Trim(cands[k]) == []) ==> r == last
    ensures cands != [] && Trim(cands[0]) != [] ==> r == Trim(cands[0])
    decreases |cands|
  {
    if cands == [] then last
    else if Trim(cands[0]) != [] then Trim(cands[0])
    else FirstFilled(cands[1..], last)
  }

  /** The account a session stands for: by id, else (old sessions) by username without regard to case. */
  function SessionAccount(s: Session, users: seq<Account>): (r: Option<Account>)
    ensures r.Some? ==> r.value in users
    ensures s.userId != "" && FindFirst(users, WithId(s.userId)).Some? ==> r == FindFirst(users, WithId(s.userId))
    ensures r.None? ==> (s.userId == "" || forall k :: 0 <= k < |users| ==> users[k].id != s.userId)
    ensures (s.userId == "" || forall k :: 0 <= k < |users| ==> users[k].id != s.userId) ==>
      r == (if s.username != "" then FindFirst(users, NamedLike(s.username)) else None)
  {
    var byId := if s.userId != "" then FindFirst(users, WithId(s.userId)) else None;
    if byId.None? && s.username != "" then FindFirst(users, NamedLike(s.username)) else byId
  }

  /** The `user` memo: `null` without a session, else the account found and the names to show. */
  function UserOf(session: Option<Session>, users: seq<Account>): (r: Option<User>)
    ensures r.None? <==> session.None?
    ensures r.Some? ==> r.value.displayName != []
    ensures r.Some? ==> r.value.initials == InitialsFrom(r.value.displayName)
    ensures session.Some? ==>
      var s, found := session.value, SessionAccount(session.value, users);
      && (found.Some? && Trim(found.value.fullName) != [] ==> r.value.displayName == Trim(found.value.fullName))
      && (found.Some? && Trim(found.value.fullName) == [] && Trim(found.value.username) != []
          ==> r.value.displayName == Trim(found.value.username))
      && (found.None? || (Trim(found.value.fullName) == [] && Trim(found.value.username) == [])
          ==> r.value.displayName == (if s.username != "" then s.username else "User"))
      && r.value.id == (if found.Some? && found.value.id != "" then Some(found.value.id) else None)
      && r.value.username == (if found.Some? && found.value.username != "" then found.value.username else s.username)
  {
    if session.None? then None
    else
      var s := session.value;
      var found := SessionAccount(s, users);
      var fallback := if s.username != "" then s.username else "User";
      var display := if found.Some? then FirstFilled([found.value.fullName, found.value.username], fallback) else fallback;
      assert found.Some? && Trim(found.value.fullName) == [] ==>
        display == FirstFilled([found.value.username], fallback);
      assert display != [] by {
        if found.Some? && (Trim(found.value.fullName) != [] || Trim(found.value.username) != []) {
        }
      }
      Some(User(if found.Some? && found.value.id != "" then Some(found.value.id) else None,
                if found.Some? && found.value.username != "" then found.value.username else s.username,
                display, InitialsFrom(display)))
  }

  /** With no account found, the name shown is the session's username, or "User". */
  lemma UnknownAccountShown(s: Session, users: seq<Account>)
    requires SessionAccount(s, users).None?
    ensures UserOf(Some(s), users).value.displayName == (if s.username != "" then s.username else "User")
    ensures UserOf(Some(s), users).value.id.None?
  {
  }

  // ---------------------------------------------------------------- register and login

  /** The checks of `register`, in their order; `None` when all pass. */
  function RegisterError(users: seq<Account>, username: string, password: string): (e: Option<string>)
    ensures Trim(username) == [] ==> e == Some("Username is required.")
    ensures Trim(username) != [] && |password| < 4 ==> e == Some("Password must be at least 4 characters.")
    ensures Trim(username) != [] && |password| >= 4 ==>
      (e.Some? <==> exists k :: 0 <= k < |users| && SameName(users[k].username, Trim(username)))
    ensures e.Some? ==> e.value in {"Username is required.", "Password must be at least 4 characters.", "User already exists. Please login."}
  {
    var u := Trim(username);
    if u == [] then Some("Username is required.")
    else if |password| < 4 then Some("Password must be at least 4 characters.")
    else if FindFirst(users, NamedLike(u)).Some? then Some("User already exists. Please login.")
    else None
  }

  /** The account `register` creates: the trimmed name, and the full name defaulting to it. */
  function NewAccount(id: string, username: string, password: string, fullName: string, now: int): (a: Account)
    ensures a.username == Trim(username) && a.password == password && a.id == id
    ensures Trim(fullName) != [] ==> a.fullName == Trim(fullName)
    ensures Trim(fullName) == [] ==> a.fullName == Trim(username)
  {
    var fn := Trim(fullName);
    Account(id, Trim(username), password, if fn != [] then fn else Trim(username), now)
  }

  /** How `login` ends: the account that matches, or the message why not. */
  function LoginCheck(users: seq<Account>, username: string, password: string): (r: Result)
    ensures r.Failed? && r.message == "User not found. Please register." <==>
      forall k :: 0 <= k < |users| ==> !SameName(users[k].username, Trim(username))
    ensures r.Passed? ==> r.account in users && r.account.password == password && SameName(r.account.username, Trim(username))
    ensures r.Failed? ==> r.message in {"User not found. Please register.", "Wrong password."}
    ensures var found := FindFirst(users, NamedLike(Trim(username)));
      r.Passed? <==> found.Some? && found.value.password == password
    ensures r.Passed? ==> r.account == FindFirst(users, NamedLike(Trim(username))).value
  {
    match FindFirst(users, NamedLike(Trim(username)))
    case None => Failed("User not found. Please register.")
    case Some(a) => if a.password != password then Failed("Wrong password.") else Passed(a)
  }

  datatype Result = Passed(account: Account) | Failed(message: string)

  /** What `register` and `login` change: the session, the accounts and the last credentials. */
  datatype State = State(session: Option<Session>, users: seq<Account>, lastCred: Cred)

  /** `register` on a state: the message and the state after it. */
  function Registered(st: State, username: string, password: string, fullName: string, id: string, now: int)
    : (r: (Outcome, State))
  {
    match RegisterError(st.users, username, password)
    case Some(msg) => (Outcome(false, msg), st)
    case None =>
      (Outcome(true, "Registered successfully."),
       State(Some(Session(id, Trim(username), now)), [NewAccount(id, username, password, fullName, now)] + st.users,
             Cred(Trim(username), password)))
  }

  /**
   * A refused registration changes nothing and says which check failed
   * first; an accepted one adds exactly one account, in front, and signs it in.
   */
  lemma RegisteredFacts(st: State, username: string, password: string, fullName: string, id: string, now: int)
    ensures var (o, after) := Registered(st, username, password, fullName, id, now);
      && (!o.ok <==> after == st && RegisterError(st.users, username, password).Some?)
      && (Trim(username) == [] ==> o.message == "Username is required.")
      && (Trim(username) != [] && |password| < 4 ==> o.message == "Password must be at least 4 characters.")
      && (o.ok ==>
            && |after.users| == |st.users| + 1 && after.users[1..] == st.users
            && after.users[0].username == Trim(username) && after.users[0].username != []
            && after.session == Some(Session(id, after.users[0].username, now)))
  {
  }

  /** `login` on a state: the message and the state after it; the accounts never change. */
  function LoggedIn(st: State, username: string, password: string, now: int): (r: (Outcome, State))
    ensures r.1.users == st.users
    ensures !r.0.ok <==> r.1 == st && LoginCheck(st.users, username, password).Failed?
  {
    match LoginCheck(st.users, username, password)
    case Failed(msg) => (Outcome(false, msg), st)
    case Passed(a) =>
      (Outcome(true, "Login success."), State(Some(Session(a.id, a.username, now)), st.users, Cred(a.username, password)))
  }

  // ---------------------------------------------------------------- the provider's state

  /**
   * The provider's state and what its effects keep in storage: the users
   * always, the session whenever it is set (and removed on logout), the
   * last credentials always.
   */
  class Provider {
    var session: Option<Session>
    var users: seq<Account>
    var lastCred: Cred
    var storedUsers: seq<Account>
    var storedSession: Option<Session>
    var storedCred: Cred

    /** What the persistence effects keep true. */
    predicate Synced()
      reads this
    {
      storedUsers == users && storedSession == session && storedCred == lastCred
    }

    function CurrentUser(): Option<User>
      reads this
    {
      UserOf(session, users)
    }

    /** The state loaded from storage: an absent session is `null`, absent users `[]`, absent credentials blank. */
    constructor(session: Option<Session>, users: seq<Account>, lastCred: Cred)
      ensures this.session == session && this.users == users && this.lastCred == lastCred
      ensures Synced()
    {
      this.session := session;
      this.users := users;
      this.lastCred := lastCred;
      storedUsers := users;
      storedSession := session;
      storedCred := lastCred;
    }

    function Now(): State
      reads this
    {
      State(session, users, lastCred)
    }

    /**
     * `register`: the first failed check's message and no change; otherwise
     * the new account in front, a session for its id, and the credentials
     * remembered. `id` and `now` stand for the random id and the clock.
     */
    method Register(username: string, password: string, fullName: string, id: string, now: int) returns (o: Outcome)
      requires Synced()
      modifies this
      ensures Synced()
      ensures (o, Now()) == Registered(old(Now()), username, password, fullName, id, now)
    {
      var next: (Outcome, State) := Registered(Now(), username, password, fullName, id, now);
      o := next.0;
      session, users, lastCred := next.1.session, next.1.users, next.1.lastCred;
      storedUsers, storedSession, storedCred := users, session, lastCred;
    }

    /** `login`: "User not found" or "Wrong password" with no change; otherwise a session for the account found. */
    method Login(username: string, password: string, now: int) returns (o: Outcome)
      requires Synced()
      modifies this
      ensures Synced()
      ensures (o, Now()) == LoggedIn(old(Now()), username, password, now)
    {
      var check := LoginCheck(users, username, password);
      if check.Failed? {
        return Outcome(false, check.message);
      }
      var a := check.account;
      session := Some(Session(a.id, a.username, now));
      storedSession := session;
      lastCred := Cred(a.username, password);
      storedCred := lastCred;
      o := Outcome(true, "Login success.");
    }

    /** `logout`: the session removed from storage and from the state. */
    method Logout()
      requires Synced()
      modifies this`session, this`storedSession
      ensures Synced() && session.None? && CurrentUser().None?
    {
      storedSession := None;
      session := None;
    }
  }

  // ---------------------------------------------------------------- what registering promises

  /** After registering, logging in with the same name, in any case, and password succeeds on the new account. */
  lemma RegisterThenLogin(users: seq<Account>, username: string, password: string, fullName: string,
                          id: string, now: int, typed: string)
    requires RegisterError(users, username, password).None?
    requires SameName(Trim(typed), Trim(username))
    ensures LoginCheck([NewAccount(id, username, password, fullName, now)] + users, typed, password)
      == Passed(NewAccount(id, username, password, fullName, now))
  {
    var a := NewAccount(id, username, password, fullName, now);
    FindFront(a, users, NamedLike(Trim(typed)));
  }

  /** A second account with the same name in another case is refused. */
  lemma NoDuplicateNames(users: seq<Account>, username: string, password: string, fullName: string,
                         id: string, now: int, again: string, password2: string)
    requires RegisterError(users, username, password).None?
    requires SameName(Trim(again), Trim(username)) && Trim(again) != [] && |password2| >= 4
    ensures RegisterError([NewAccount(id, username, password, fullName, now)] + users, again, password2)
      == Some("User already exists. Please login.")
  {
    var a := NewAccount(id, username, password, fullName, now);
    FindFront(a, users, NamedLike(Trim(again)));
  }

  /** A new account's full name is already trimmed and never blank. */
  lemma NewAccountNames(id: string, username: string, password: string, fullName: string, now: int)
    requires Trim(username) != []
    ensures var a := NewAccount(id, username, password, fullName, now);
      a.fullName != [] && Trim(a.fullName) == a.fullName
  {
    var a := NewAccount(id, username, password, fullName, now);
    TrimOfTrimmed(Trim(fullName));
    TrimOfTrimmed(Trim(username));
  }

  /**
   * After registering, the user shown is the new account: its id, its
   * name, and the full name given (or the username) as the name shown.
   */
  lemma RegisteredUserShown(users: seq<Account>, username: string, password: string, fullName: string,
                            id: string, now: int)
    requires RegisterError(users, username, password).None? && id != ""
    ensures var a := NewAccount(id, username, password, fullName, now);
      var u := UserOf(Some(Session(id, Trim(username), now)), [a] + users).value;
      u.id == Some(id) && u.username == Trim(username) && u.displayName == a.fullName
  {
    var a := NewAccount(id, username, password, fullName, now);
    var s := Session(id, Trim(username), now);
    FindFront(a, users, WithId(id));
    assert SessionAccount(s, [a] + users) == Some(a);
    NewAccountNames(id, username, password, fullName, now);
    assert FirstFilled([a.fullName, a.username], Trim(username)) == a.fullName;
  }
}
