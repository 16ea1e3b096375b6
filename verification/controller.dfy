/** The page controller of `app.py`: the per-browser session, the login,
    registration and logout actions, and `main`, which decides on every
    run of the script which page is drawn.

    One call of `Run` is one top-to-bottom run of the script: the stored
    table and session go in, together with the sidebar choice, the coin in
    the select box and the one button (if any) pressed with the field
    values typed; the updated table and session come out, with the page
    shown. A button on a page that is not drawn cannot be pressed, so such
    an input is ignored. The market-data network is the parameter
    `network`, from request URL to response. */
module Controller {
  import opened Wrappers
  import opened EmailValidation
  import opened CredentialStore
  import Market

  /** `st.session_state`: whether someone is logged in, and as whom. */
  datatype Session = Session(loggedIn: bool, userEmail: Option<string>)

  /** The session a fresh browser starts with, and the one logout restores. */
  const SignedOut: Session := Session(false, None)

  /** The `"logged_in" not in st.session_state` initialisation: a missing
      session starts signed out, an existing one is kept. */
  function StartSession(stored: Option<Session>): (s: Session)
    ensures stored.None? ==> !s.loggedIn && s.userEmail.None?
    ensures stored.Some? ==> s == stored.value
  {
    stored.GetOr(SignedOut)
  }

  /** The messages the login and registration pages display. */
  datatype Notice =
    | InvalidEmail
    | LoggedIn(email: string)
    | BadCredentials
    | AlreadyRegistered
    | AccountCreated

  /** The login button: the e-mail is checked first and the store is only
      consulted for a well-formed address; the session is set to the
      address exactly when the stored digest matches, and is otherwise
      left as it was. */
  function Login(t: UserTable, hash: Hasher, s: Session, email: string, password: string): (r: (Session, Notice))
    ensures r.1.LoggedIn? <==> EmailPattern(email) && email in t.users && t.users[email] == hash(password)
    ensures r.1.LoggedIn? ==> r == (Session(true, Some(email)), LoggedIn(email))
    ensures !r.1.LoggedIn? ==> r.0 == s
    ensures !EmailPattern(email) ==> r.1 == InvalidEmail
    ensures EmailPattern(email) && !r.1.LoggedIn? ==> r.1 == BadCredentials
  {
    if !IsValidEmail(email) then (s, InvalidEmail)
    else if VerifyUser(t, hash, email, password) then (Session(true, Some(email)), LoggedIn(email))
    else (s, BadCredentials)
  }

  /** The register button: a malformed address or one already listed by
      `get_users` is refused without touching the table; otherwise the user
      is added. The session is never changed, and the new user is not
      logged in. */
  function Register(t: UserTable, hash: Hasher, s: Session, email: string, password: string)
    : (r: (UserTable, Session, Notice))
    ensures r.1 == s
    ensures r.2 == AccountCreated <==> EmailPattern(email) && email !in t.users
    ensures r.2 == AccountCreated ==> r.0.users == t.users[email := hash(password)]
    ensures r.2 != AccountCreated ==> r.0 == t
    ensures !EmailPattern(email) ==> r.2 == InvalidEmail
    ensures EmailPattern(email) && email in t.users ==> r.2 == AlreadyRegistered
  {
    if !IsValidEmail(email) then (t, s, InvalidEmail)
    else if email in t.users.Keys then (t, s, AlreadyRegistered)
    else (AddUser(t, hash, email, password).1, s, AccountCreated)
  }

  /** The logout button: both session fields are reset. */
  function Logout(s: Session): (r: Session)
    ensures !r.loggedIn && r.userEmail.None?
    ensures r == StartSession(None)
  {
    SignedOut
  }

  /** A freshly registered, well-formed address can log in with the
      password it was registered with. */
  lemma LoginAfterRegister(t: UserTable, hash: Hasher, s: Session, email: string, password: string)
    requires IsValidEmail(email) && email !in t.users
    ensures var (t1, s1, n) := Register(t, hash, s, email, password);
            n == AccountCreated && s1 == s
            && Login(t1, hash, s1, email, password) == (Session(true, Some(email)), LoggedIn(email))
  {
  }

  /** A malformed address never reaches the store: login and registration
      answer the same whatever the table and the digest function are. */
  lemma InvalidEmailIgnoresStore(t1: UserTable, t2: UserTable, h1: Hasher, h2: Hasher,
                                 s: Session, email: string, password: string)
    requires !IsValidEmail(email)
    ensures Login(t1, h1, s, email, password) == Login(t2, h2, s, email, password) == (s, InvalidEmail)
    ensures Register(t1, h1, s, email, password) == (t1, s, InvalidEmail)
  {
  }

  /** The sidebar radio shown to a visitor who is not logged in. */
  datatype Choice = LoginChoice | RegisterChoice

  /** The button pressed during a run, with the fields typed on its page. */
  datatype Input =
    | NoClick
    | LoginClick(email: string, password: string)
    | RegisterClick(email: string, password: string)
    | LogoutClick

  /** The page drawn by a run. */
  datatype Screen =
    | LoginScreen(notice: Option<Notice>)
    | RegisterScreen(notice: Option<Notice>)
    | DashboardScreen(coin: string, panel: Market.Panel)

  /** What persists between runs: the users table of the database file
      (`None` before it is first created) and the browser's session state
      (`None` before it is first initialised). */
  datatype App = App(table: Option<UserTable>, session: Option<Session>)

  datatype Step = Step(app: App, screen: Screen)

  /** The dashboard page: look the coin up, fetch its prices, show the
      metrics or the error, then honour the logout button. */
  function Dashboard(t: UserTable, s: Session, coin: string, input: Input,
                     network: string -> Market.HttpResponse): (r: Step)
    requires coin in Market.SelectOptions()
    ensures r.screen.DashboardScreen? && r.screen.coin == coin && !r.screen.panel.Crashed?
    ensures r.app.table == Some(t)
    ensures r.app.session == Some(if input.LogoutClick? then SignedOut else s)
    ensures var resp := network(Market.ChartUrl(Market.CoinId(coin)));
            && (r.screen.panel.Shown? <==> resp.status == 200 && |resp.prices| > 0)
            && (r.screen.panel.Shown? ==> r.screen.panel.chart == resp.prices
                                          && r.screen.panel.metrics == Market.ComputeMetrics(resp.prices))
  {
    var fetched := Market.GetCoinData(network(Market.ChartUrl(Market.CoinId(coin))));
    var panel := Market.DashboardPanel(fetched);
    var s' := if input.LogoutClick? then Logout(s) else s;
    Step(App(Some(t), Some(s')), DashboardScreen(coin, panel))
  }

  /** `main`: create the table if needed, initialise the session if
      needed, then draw the dashboard for a logged-in session and the page
      chosen in the sidebar otherwise. */
  function Run(app: App, choice: Choice, coin: string, input: Input,
               hash: Hasher, network: string -> Market.HttpResponse): (r: Step)
    requires coin in Market.SelectOptions()
    ensures r.screen.DashboardScreen? <==> StartSession(app.session).loggedIn
    ensures r.app.table.Some? && r.app.session.Some?
    ensures app.table.Some? ==> app.table.value.users.Keys <= r.app.table.value.users.Keys
    // logged in: the dashboard page, with its fetch and its logout button
    ensures var t := CreateUserTable(app.table); var s := StartSession(app.session);
            s.loggedIn ==> r == Dashboard(t, s, coin, input, network)
    // signed out, login page: a login click goes through `Login`, anything else changes nothing
    ensures var t := CreateUserTable(app.table); var s := StartSession(app.session);
            !s.loggedIn && choice == LoginChoice ==>
              && r.screen.LoginScreen? && r.app.table == Some(t)
              && (input.LoginClick? ==>
                    var (s', n) := Login(t, hash, s, input.email, input.password);
                    r.app.session == Some(s') && r.screen.notice == Some(n))
              && (!input.LoginClick? ==> r.app.session == Some(s) && r.screen.notice.None?)
    // signed out, register page: a register click goes through `Register`, anything else changes nothing
    ensures var t := CreateUserTable(app.table); var s := StartSession(app.session);
            !s.loggedIn && choice == RegisterChoice ==>
              && r.screen.RegisterScreen?
              && (input.RegisterClick? ==>
                    var (t', s', n) := Register(t, hash, s, input.email, input.password);
                    r.app.table == Some(t') && r.app.session == Some(s') && r.screen.notice == Some(n))
              && (!input.RegisterClick? ==>
                    r.app.table == Some(t) && r.app.session == Some(s) && r.screen.notice.None?)
  {
    var t := CreateUserTable(app.table);
    var s := StartSession(app.session);
    if s.loggedIn then Dashboard(t, s, coin, input, network)
    else
      match choice
      case LoginChoice =>
        if input.LoginClick? then
          var (s', n) := Login(t, hash, s, input.email, input.password);
          Step(App(Some(t), Some(s')), LoginScreen(Some(n)))
        else Step(App(Some(t), Some(s)), LoginScreen(None))
      case RegisterChoice =>
        if input.RegisterClick? then
          var (t', s', n) := Register(t, hash, s, input.email, input.password);
          Step(App(Some(t'), Some(s')), RegisterScreen(Some(n)))
        else Step(App(Some(t), Some(s)), RegisterScreen(None))
  }

  /** The state every reachable `App` is in: a session is logged in
      exactly when it holds an e-mail, and that e-mail is well formed and
      registered in the table. */
  ghost predicate Consistent(app: App)
  {
    match app.session
    case None => true
    case Some(s) =>
      && (s.loggedIn <==> s.userEmail.Some?)
      && (s.loggedIn ==> app.table.Some? && EmailPattern(s.userEmail.value)
                         && s.userEmail.value in app.table.value.users)
  }

  /** Every run keeps the state consistent. */
  lemma RunKeepsConsistent(app: App, choice: Choice, coin: string, input: Input,
                           hash: Hasher, network: string -> Market.HttpResponse)
    requires coin in Market.SelectOptions()
    requires Consistent(app)
    ensures Consistent(Run(app, choice, coin, input, hash, network).app)
  {
  }

  /** A run that ends logged in but started signed out was a login on the
      login page with a well-formed address whose stored digest matched the
      password typed. */
  lemma LoginOnlyByVerification(app: App, choice: Choice, coin: string, input: Input,
                                hash: Hasher, network: string -> Market.HttpResponse)
    requires coin in Market.SelectOptions()
    requires !StartSession(app.session).loggedIn
    requires Run(app, choice, coin, input, hash, network).app.session.value.loggedIn
    ensures choice == LoginChoice && input.LoginClick?
    ensures IsValidEmail(input.email)
    ensures VerifyUser(CreateUserTable(app.table), hash, input.email, input.password)
    ensures Run(app, choice, coin, input, hash, network).app.session == Some(Session(true, Some(input.email)))
  {
  }

  /** The converse: from a signed-out session, a login click on the login
      page with a well-formed e-mail whose stored digest matches the
      password logs in as that e-mail, and the next run draws the
      dashboard whatever is chosen or pressed then. */
  lemma LoginTakesEffect(app: App, coin: string, email: string, password: string,
                         hash: Hasher, network: string -> Market.HttpResponse,
                         choice': Choice, coin': string, input': Input)
    requires coin in Market.SelectOptions() && coin' in Market.SelectOptions()
    requires !StartSession(app.session).loggedIn
    requires IsValidEmail(email) && VerifyUser(CreateUserTable(app.table), hash, email, password)
    ensures var r := Run(app, LoginChoice, coin, LoginClick(email, password), hash, network);
            && r.app.session == Some(Session(true, Some(email)))
            && r.screen == LoginScreen(Some(LoggedIn(email)))
            && Run(r.app, choice', coin', input', hash, network).screen.DashboardScreen?
  {
  }

  /** A registration never changes the session. */
  lemma RegisterKeepsSession(app: App, coin: string, email: string, password: string,
                             hash: Hasher, network: string -> Market.HttpResponse)
    requires coin in Market.SelectOptions()
    ensures Run(app, RegisterChoice, coin, RegisterClick(email, password), hash, network).app.session
            == Some(StartSession(app.session))
  {
  }

  /** After logging out, the next run shows no dashboard, whatever is
      chosen or pressed: getting back needs a new login. */
  lemma NoDashboardAfterLogout(app: App, coin: string, hash: Hasher, network: string -> Market.HttpResponse,
                               choice: Choice, coin': string, input': Input)
    requires coin in Market.SelectOptions() && coin' in Market.SelectOptions()
    requires StartSession(app.session).loggedIn
    ensures var next := Run(app, LoginChoice, coin, LogoutClick, hash, network).app;
            !Run(next, choice, coin', input', hash, network).screen.DashboardScreen?
  {
  }

  /** One run's worth of user interaction. */
  datatype Interaction = Interaction(choice: Choice, coin: string, input: Input)

  predicate ValidCoins(steps: seq<Interaction>)
  {
    forall i :: 0 <= i < |steps| ==> steps[i].coin in Market.SelectOptions()
  }

  /** The state after a sequence of runs. */
  function Replay(app: App, steps: seq<Interaction>, hash: Hasher,
                  network: string -> Market.HttpResponse): (a: App)
    requires ValidCoins(steps)
    decreases |steps|
  {
    if |steps| == 0 then app
    else
      var next := Run(app, steps[0].choice, steps[0].coin, steps[0].input, hash, network).app;
      Replay(next, steps[1..], hash, network)
  }

  /** The state a brand-new deployment starts in: no table, no session. */
  const Fresh: App := App(None, None)

  /** Any sequence of runs from a consistent state ends in a consistent
      state. */
  lemma {:induction false} ReplayKeepsConsistent(app: App, steps: seq<Interaction>, hash: Hasher,
                                                 network: string -> Market.HttpResponse)
    requires Consistent(app) && ValidCoins(steps)
    ensures Consistent(Replay(app, steps, hash, network))
    decreases |steps|
  {
    if |steps| > 0 {
      var s0 := steps[0];
      RunKeepsConsistent(app, s0.choice, s0.coin, s0.input, hash, network);
      var next := Run(app, s0.choice, s0.coin, s0.input, hash, network).app;
      assert ValidCoins(steps[1..]) by {
        forall i | 0 <= i < |steps[1..]| ensures steps[1..][i].coin in Market.SelectOptions() {
          assert steps[1..][i] == steps[i + 1];
        }
      }
      ReplayKeepsConsistent(next, steps[1..], hash, network);
    }
  }

  /** The session is logged in as a well-formed, registered e-mail. */
  predicate LoggedInAsRegistered(app: App)
  {
    && app.session.Some? && app.session.value.loggedIn
    && app.session.value.userEmail.Some? && app.table.Some?
    && IsValidEmail(app.session.value.userEmail.value)
    && app.session.value.userEmail.value in app.table.value.users
  }

  /** From a fresh start, whatever sequence of runs happens, the
      dashboard is only ever drawn for a logged-in session whose e-mail is
      well formed and registered. */
  lemma DashboardOnlyForRegisteredUser(app: App, steps: seq<Interaction>, last: Interaction,
                                       hash: Hasher, network: string -> Market.HttpResponse)
    requires Consistent(app)
    requires ValidCoins(steps) && last.coin in Market.SelectOptions()
    ensures var a := Replay(app, steps, hash, network);
            Run(a, last.choice, last.coin, last.input, hash, network).screen.DashboardScreen? ==>
              LoggedInAsRegistered(a)
  {
    var a := Replay(app, steps, hash, network);
    ReplayKeepsConsistent(app, steps, hash, network);
  }

  /** A fresh deployment is consistent, so the lemma above applies to it. */
  lemma FreshIsConsistent()
    ensures Consistent(Fresh)
    ensures StartSession(Fresh.session) == SignedOut
  {
  }
}
