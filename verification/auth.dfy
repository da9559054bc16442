/** The mocked authentication session: the signed-in user, a loading flag and
    the user kept in browser storage, the transitions that change them, and the
    redirect decision taken whenever the user, the flag or the path changes.
    The simulated network delays become the gap between `Begin` and `Complete`. */
module Auth {
  import opened Results

  datatype User = User(id: string, email: Option<string>, name: Option<string>)

  /** `user` is the signed-in user, `stored` the one kept in browser storage. */
  datatype Session = Session(user: Option<User>, loading: bool, stored: Option<User>)

  datatype Action = Login(email: Option<string>) | Signup(email: Option<string>) | GoogleSignIn | Logout

  /** The new session state and the page the action navigates to afterwards. */
  datatype Outcome = Outcome(session: Session, target: string)

  const LoginPath: string := "/login"
  const SignupPath: string := "/signup"
  const DashboardPath: string := "/dashboard"

  /** `path` begins with `prefix`. */
  predicate StartsWith(path: string, prefix: string) {
    |prefix| <= |path| && path[..|prefix|] == prefix
  }

  /** The state before anything has run: nobody signed in, still loading. */
  function Mount(stored: Option<User>): Session {
    Session(None, true, stored)
  }

  /** The mount-time check: a stored user becomes the signed-in user; loading ends either way. */
  function Restore(s: Session): (t: Session)
    ensures !t.loading && t.stored == s.stored
    ensures s.stored.Some? ==> t.user == s.stored
    ensures s.stored.None? ==> t.user == s.user
  {
    Session(if s.stored.Some? then s.stored else s.user, false, s.stored)
  }

  /** A given email, or the default when it is absent or empty. */
  function EmailOr(email: Option<string>, default: string): (e: string)
    ensures email.Some? && email.value != "" ==> e == email.value
    ensures email.None? || email.value == "" ==> e == default
  {
    if email.Some? && email.value != "" then email.value else default
  }

  /** The user an action leaves signed in (none for a logout). Passwords are ignored. */
  function ActionUser(a: Action): (u: Option<User>)
    ensures a.Logout? <==> u.None?
    ensures a.Login? ==> u == Some(User("mock-user-id", Some(EmailOr(a.email, "user@example.com")), Some("Mock User")))
    ensures a.Signup? ==> u == Some(User("mock-new-user-id", Some(EmailOr(a.email, "newuser@example.com")), Some("New User")))
    ensures a.GoogleSignIn? ==> u == Some(User("mock-google-user-id", Some("googleuser@example.com"), Some("Google User")))
  {
    match a
    case Login(email) => Some(User("mock-user-id", Some(EmailOr(email, "user@example.com")), Some("Mock User")))
    case Signup(email) => Some(User("mock-new-user-id", Some(EmailOr(email, "newuser@example.com")), Some("New User")))
    case GoogleSignIn => Some(User("mock-google-user-id", Some("googleuser@example.com"), Some("Google User")))
    case Logout => None
  }

  /** An action has started: loading, nothing else changed yet. */
  function Begin(s: Session): (t: Session)
    ensures t.loading && t.user == s.user && t.stored == s.stored
  {
    s.(loading := true)
  }

  /** An action has finished its delay: the user is set, written to (or removed
      from) storage, and loading ends. */
  function Complete(s: Session, a: Action): (t: Session)
    ensures !t.loading
    ensures t.user == ActionUser(a) && t.stored == t.user
  {
    Session(ActionUser(a), false, ActionUser(a))
  }

  /** The page an action navigates to once it has completed. */
  function Landing(a: Action): (path: string)
    ensures a.Logout? ==> path == LoginPath
    ensures !a.Logout? ==> path == DashboardPath
  {
    if a.Logout? then LoginPath else DashboardPath
  }

  /** The whole action: begin, complete, navigate. */
  function Perform(s: Session, a: Action): (o: Outcome)
    ensures !o.session.loading && o.session.user == o.session.stored
    ensures o.session.user == ActionUser(a)
    ensures o.session.user.Some? <==> !a.Logout?
    ensures o.target == (if a.Logout? then LoginPath else DashboardPath)
  {
    Outcome(Complete(Begin(s), a), Landing(a))
  }

  /** The sign-in and sign-up pages, recognised by prefix. */
  predicate IsAuthPage(path: string) {
    StartsWith(path, LoginPath) || StartsWith(path, SignupPath)
  }

  /** Where the guard sends the browser, if anywhere: nowhere while loading;
      to the login page when nobody is signed in outside the auth pages; to the
      dashboard when someone is signed in on an auth page. */
  function Redirect(user: Option<User>, loading: bool, path: string): (r: Option<string>)
    ensures loading ==> r.None?
    ensures r == Some(LoginPath) <==> !loading && user.None? && !IsAuthPage(path)
    ensures r == Some(DashboardPath) <==> !loading && user.Some? && IsAuthPage(path)
    ensures r.None? || r == Some(LoginPath) || r == Some(DashboardPath)
  {
    if loading then None
    else
      var onAuthPage := IsAuthPage(path);
      if user.None? && !onAuthPage then Some(LoginPath)
      else if user.Some? && onAuthPage then Some(DashboardPath)
      else None
  }

  /** Apply the actions in order. */
  function Run(s: Session, actions: seq<Action>): Session
    decreases |actions|
  {
    if |actions| == 0 then s else Run(Perform(s, actions[0]).session, actions[1..])
  }

  /** Settled: not loading, and the signed-in user is the stored one. */
  predicate Settled(s: Session) {
    !s.loading && s.user == s.stored
  }

  // ---------------------------------------------------------------------------
  // What the session promises

  /** The prefix test is literal: exactly the paths beginning "/login" or
      "/signup" count, including ones such as "/loginhelp". */
  lemma AuthPageExamples()
    ensures IsAuthPage("/login") && IsAuthPage("/signup") && IsAuthPage("/login/reset")
    ensures IsAuthPage("/loginhelp")
    ensures !IsAuthPage("/dashboard") && !IsAuthPage("/") && !IsAuthPage("") && !IsAuthPage("/log")
  {
    assert "/login/reset"[..6] == "/login";
    assert "/loginhelp"[..6] == "/login";
    DashboardIsNotAuthPage();
  }

  /** The dashboard is outside the auth pages and the login page inside them. */
  lemma DashboardIsNotAuthPage()
    ensures !IsAuthPage(DashboardPath)
    ensures IsAuthPage(LoginPath)
  {
    assert DashboardPath[..|LoginPath|][1] != LoginPath[1];
    assert DashboardPath[..|SignupPath|][1] != SignupPath[1];
    assert LoginPath[..|LoginPath|] == LoginPath;
  }

  /** Following a redirect never triggers another one: the guard cannot loop. */
  lemma RedirectSettles(user: Option<User>, loading: bool, path: string)
    requires Redirect(user, loading, path).Some?
    ensures Redirect(user, loading, Redirect(user, loading, path).value).None?
  {
    DashboardIsNotAuthPage();
  }

  /** While an action is pending the guard stays quiet, whatever the page. */
  lemma NoRedirectWhilePending(s: Session, path: string)
    ensures Redirect(Begin(s).user, Begin(s).loading, path).None?
  {
  }

  /** Each completed action lands on a page the guard leaves alone. */
  lemma ActionsLandWithoutRedirect(s: Session, a: Action)
    ensures var o := Perform(s, a); Redirect(o.session.user, o.session.loading, o.target).None?
  {
    DashboardIsNotAuthPage();
  }

  /** The mount-time check settles the session: afterwards the signed-in user is
      the stored one (or nobody), and loading has ended. */
  lemma RestoreSettles(stored: Option<User>)
    ensures Settled(Restore(Mount(stored)))
    ensures Restore(Mount(stored)).user == stored
  {
  }

  /** After any non-empty run of actions the session is settled, and the user is the
      one the last action signs in (nobody after a logout). */
  lemma {:induction false} RunSettles(s: Session, actions: seq<Action>)
    requires |actions| >= 1
    ensures Settled(Run(s, actions))
    ensures Run(s, actions).user == ActionUser(actions[|actions| - 1])
    decreases |actions|
  {
    if |actions| > 1 {
      var t := Perform(s, actions[0]).session;
      RunSettles(t, actions[1..]);
      assert actions[1..][|actions[1..]| - 1] == actions[|actions| - 1];
    }
  }

  /** From a settled session, every run of actions leaves it settled. */
  lemma {:induction false} RunKeepsSettled(s: Session, actions: seq<Action>)
    requires Settled(s)
    ensures Settled(Run(s, actions))
  {
    if |actions| >= 1 {
      RunSettles(s, actions);
    }
  }
}
