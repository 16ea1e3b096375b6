# CryptoView credential store and dashboard controller, in Dafny

This project models the core of a small Streamlit application that lets
users register, log in and then watch seven days of prices of one of
fourteen cryptocurrencies. The model covers four things:

- the **credential store** of `database.py`, a table of unique usernames
  mapped to password digests (`CredentialStore`);
- the **e-mail check** `is_valid_email`, a start-anchored regular
  expression (`EmailValidation`);
- the **dashboard data**: the `COINS` table, the request for price data
  and the three metrics (`Market`);
- the **session and page controller**: login, registration, logout and
  the page choice made by `main` (`Controller`).

Modelling choices:

- The SQLite `users` table is a `map<string, string>` from username to digest.
  The `UNIQUE` constraint is why a map fits.
  A table that does not exist yet is `None`.
- `hash_password` (SHA-256) is a function parameter `hash`.
  It is deterministic, as every Dafny function is, and nothing else is assumed of it.
  In particular, distinct passwords are not assumed to give distinct digests.
- Prices are `real`.
- The network is a parameter mapping a request URL to a response (status code and price list).
- One `Controller.Run` is one top-to-bottom run of the Streamlit script.
  A button on a page that is not drawn cannot be pressed, so its input is ignored.
  `st.rerun()` after logout is simply the caller's next `Run`.
- `is_valid_email` returns a match object or `None`.
  Only its truth value is used, so it is modelled as a `bool`.

## Model

| member | source | states |
|---|---|---|
| `CredentialStore.CreateUserTable` | database.py:6-18 | An existing table is returned unchanged. A missing one is created empty. |
| `CredentialStore.CreateUserTableIdempotent` | database.py:10-11 | Creating the table a second time changes nothing, and every existing entry survives. |
| `CredentialStore.AddUser` | database.py:24-34 | Returns true exactly when the username was absent. Afterwards the username maps to `hash(p)`, other entries are unchanged, and the key set grows by exactly that name. On a duplicate it returns false and leaves the table as it was. |
| `CredentialStore.AddUserTwice` | database.py:13 | A second `add_user` of the same username fails, and the table keeps the first digest. |
| `CredentialStore.AddUserKeepsOthers` | database.py:24-31 | Adding a user never changes whether any other user verifies with any password. |
| `CredentialStore.VerifyUser` | database.py:38-49 | True exactly when the username is stored and its stored digest equals the digest of the offered password. |
| `CredentialStore.VerifyAbsentUser` | database.py:42-49 | `verify_user` is false for a username that is not stored. |
| `CredentialStore.VerifyDependsOnlyOnDigest` | database.py:20-22 | Verification sees a password only through its digest. Two passwords with equal digests verify identically. |
| `CredentialStore.VerifyAfterAdd` | database.py:24-49 | After a successful `add_user(u, p)`, `verify_user(u, q)` holds exactly when `hash(q) == hash(p)`. In particular it holds for `p`. |
| `CredentialStore.UpdatePassword` | database.py:60-66 | The key set is unchanged. A present user gets `hash(q)` and every other entry is unchanged. An absent user makes it a silent no-op. |
| `CredentialStore.UpdateThenVerify` | database.py:60-66 | After the update, a present user verifies with the new password and an absent one still does not. Other users verify as before. |
| `CredentialStore.GetUsers` | database.py:51-58 | Returns every stored username, each exactly once. The list length is the number of users. |
| `EmailValidation.NonAtRun` | app.py:10 | Returns where the '@'-free stretch from a start index ends: no '@' lies between the start and the result, and the result is the first '@' after the start or the end of the string. This is how far a greedy `[^@]+` reaches. |
| `EmailValidation.ScanDecidesPattern` | app.py:10 | The scan accepts exactly the strings for which split points exist: local part, '@', domain, '.', and one more non-'@' character. |
| `EmailValidation.IsValidEmail` | app.py:9-10 | `is_valid_email` accepts exactly the `EmailPattern` strings: those that begin with a start-anchored match of `[^@]+@[^@]+\.[^@]+`. This is proved through `ScanDecidesPattern`. |
| `EmailValidation.ValidEmailMatches` | app.py:10 | A string the scan accepts has split points whose '@' is its first '@'. |
| `EmailValidation.MatchImpliesValid` | app.py:10 | Any split points satisfying the pattern make the scan accept. |
| `EmailValidation.ValidEmailExtends` | app.py:10 | The match is not end-anchored: appending any text to an accepted string keeps it accepted. |
| `EmailValidation.AcceptsOrdinaryAddress` | app.py:10 | `user@example.com` is accepted. |
| `EmailValidation.RejectsMissingAt` | app.py:10 | `not-an-email` is rejected. |
| `EmailValidation.RejectsMissingDot` | app.py:10 | `a@b` is rejected. |
| `EmailValidation.RejectsEmptyLocalPart` | app.py:10 | `@b.c` is rejected. |
| `EmailValidation.AcceptsTrailingText` | app.py:10 | `a@b.c@` is accepted, because characters after the match are unconstrained. |
| `Market.Lookup` | app.py:88 | The dictionary lookup is defined exactly for the names in the table, and the value returned is paired with the name. |
| `Market.LookupFindsPair` | app.py:13-28 | With distinct names, the lookup returns the one identifier declared with the name. |
| `Market.SelectOptions` | app.py:87 | The select box offers the names of `COINS`, one per entry, in declaration order. |
| `Market.CoinTableWellFormed` | app.py:13-28 | `COINS` has 14 entries with distinct names, and every select-box option has an identifier. |
| `Market.CoinId` | app.py:87-88 | For a select-box option, `COINS[selected_coin]` is the identifier declared with it, so it never raises. |
| `Market.CoinIdExamples` | app.py:14-27 | Bitcoin maps to `bitcoin`, Avalanche to `avalanche-2`, Polygon to `matic-network`, and Shiba Inu to `shiba-inu`. |
| `Market.ChartUrl` | app.py:32 | The request URL is the fixed prefix, then the coin identifier, then the fixed query for seven days in USD (`/market_chart?vs_currency=usd&days=7`). |
| `Market.ChartUrlInjective` | app.py:32 | Distinct coin identifiers give distinct request URLs. |
| `Market.GetCoinData` | app.py:31-36 | The price data is returned exactly when the status is 200. Any other status gives `None`. |
| `Market.Prices` | app.py:94-95 | The price column has the same length as the series, and each entry is the price of the matching sample. |
| `Market.Max` | app.py:94 | The 7-day high is at least every price and is one of the prices. |
| `Market.Min` | app.py:95 | The 7-day low is at most every price and is one of the prices. |
| `Market.ComputeMetrics` | app.py:93-95 | For a non-empty series: the current price is the last sample's price, and the high and low bound every price and are attained. So low <= current <= high. |
| `Market.MetricsExample` | app.py:93-95 | The series `[[1000,100],[2000,150],[3000,120]]` gives current 120, high 150 and low 100. |
| `Market.PanelAsWritten` | app.py:92-98 | As written: a failed fetch shows the error. A fetched empty series raises, and that is the only case that raises. Otherwise the chart of the fetched series is shown with that series' metrics (`ComputeMetrics`). |
| `Market.EmptySeriesCrashes` | app.py:93 | A status-200 answer with an empty price list makes the dashboard raise. |
| `Market.DashboardPanel` | app.py:92-98 | Corrected version: never raises. Metrics are shown exactly when a non-empty series arrived. They are then that series' metrics (`ComputeMetrics`), so low <= current <= high. |
| `Market.DashboardPanelAgrees` | app.py:92-98 | The correction differs from the code only on the empty series, which it reports as a fetch error. |
| `Controller.StartSession` | app.py:109-111 | A missing session starts with `logged_in` false and no e-mail. An existing session is kept. |
| `Controller.Login` | app.py:59-67 | Login succeeds exactly when the e-mail matches the pattern and the stored digest equals `hash(password)`. Success sets the session to that e-mail. Otherwise the session is unchanged. A malformed e-mail gives the validation error. A well-formed e-mail that fails verification gives one credentials error, whether the user is unknown or the password is wrong. |
| `Controller.InvalidEmailIgnoresStore` | app.py:60-62 | A malformed e-mail never consults the store. Login gives the same answer for any table and digest function, and registration leaves the table unchanged. |
| `Controller.Register` | app.py:75-82 | The session is never changed. An account is created exactly for a well-formed e-mail that is not yet listed. Only then does the table gain that e-mail with `hash(password)`; otherwise it is unchanged. A well-formed e-mail that is already stored gives the duplicate warning. |
| `Controller.LoginAfterRegister` | app.py:59-82 | Registering a fresh, well-formed e-mail and then logging in with the same password succeeds. |
| `Controller.Logout` | app.py:100-103 | Logout resets both session fields to the initial signed-out values. |
| `Controller.Dashboard` | app.py:84-103 | The panel is built from the network's answer for the selected coin's URL. Metrics and chart are shown exactly when that answer has status 200 and a non-empty price list, and they are that list's chart and metrics. The session output is the signed-out session when logout is pressed, and the unchanged session otherwise. |
| `Controller.Run` | app.py:105-120 | Logged in: the run is the dashboard page. Signed out: the sidebar choice picks the page. On the login page a login click goes through `Login`, sets the session and shows its notice; on the register page a register click goes through `Register`, sets the table and shows its notice. Any other input changes nothing. After a run the table and the session exist, and no user is removed. |
| `Controller.RunKeepsConsistent` | app.py:105-120 | Every run preserves this invariant: logged in exactly when an e-mail is held, and that e-mail is well formed and registered. |
| `Controller.LoginOnlyByVerification` | app.py:59-65 | A run that goes from signed out to logged in was a login-button press on the login page. The e-mail was valid and verified against the table, and the session now holds it. |
| `Controller.LoginTakesEffect` | app.py:59-120 | From a signed-out session, a login click with a well-formed e-mail whose stored digest matches logs in as that e-mail and shows the success notice. The next run then draws the dashboard. |
| `Controller.RegisterKeepsSession` | app.py:75-82 | A run with the register button leaves the session as it was. |
| `Controller.NoDashboardAfterLogout` | app.py:100-103 | After a logout, the next run draws no dashboard, whatever is chosen or pressed. |
| `Controller.ReplayKeepsConsistent` | app.py:105-120 | Any sequence of runs from a consistent state ends in a consistent state. |
| `Controller.DashboardOnlyForRegisteredUser` | app.py:105-120 | Take any sequence of runs from a consistent state, such as a fresh deployment. Whenever the dashboard is drawn, the session is logged in with a well-formed, registered e-mail. |
| `Controller.FreshIsConsistent` | app.py:107-111 | A fresh deployment, with no table and no session, satisfies the invariant and starts signed out. |

## Left out

- SQLite connections, commits, closes and SQL text are resource plumbing. The table is a map. The autoincrement `id` column is never read.
- The SHA-256 digest and hex encoding are not modelled. `hash` is an arbitrary function, so no property of the digest besides determinism is used.
- CredentialStore.GetUsers: the row order of `SELECT username FROM users` is left unspecified, as SQL leaves it.
- The HTTP request itself is not modelled: the network is a parameter. An exception raised by `requests.get` (connection failure, timeout) propagates uncaught in the code and is not modelled.
- JSON decoding is not modelled: a response is reduced to its status and price list. A status-200 body that is an empty object (falsy, so the error branch) or that lacks `prices` (a `KeyError`) is not modelled.
- Floating-point prices, rounding and the `,.2f` display formatting are not modelled. Prices are `real`.
- `plot_chart` (pandas DataFrame, millisecond-to-datetime conversion, Plotly figure) is not modelled. The chart is represented by the series it is drawn from.
- All Streamlit widget rendering is left out, as are `st.set_page_config` and the text of the messages. The messages become the `Controller.Notice` values.
- `add_user`'s return value is ignored by the registration page. The model ignores it too. In the model it is always true there, because the e-mail was just checked to be absent.
- Streamlit serves each browser session separately, but all sessions share `users.db`. Writes by other sessions to that shared table are not modelled. Another session could insert the same e-mail between the `get_users()` check (app.py:78) and `add_user` (app.py:81); `add_user` would then return false while the page still reports the account as created.
- Controller.Dashboard: uses the corrected dashboard panel (see Findings), so it never raises. The code raises at app.py:93 on an empty price list, which also stops the script before the logout button at app.py:100 is drawn. `Market.PanelAsWritten` keeps the code's behaviour.
- `Controller.Run` uses the same corrected panel through `Controller.Dashboard`.
- A transport failure (`requests.get` raising) is not turned into the `st.error("⚠️ Failed to fetch data from API.")` branch at app.py:97-98: the exception propagates. The model follows the code by leaving transport failures out.

## Findings

| source | as written | input that shows it | evidently intended | confidence | as-written member | corrected member |
|---|---|---|---|---|---|---|
| app.py:92-95 | `if data:` only guards against a failed fetch; `data['prices'][-1]`, `max` and `min` are then applied with no emptiness check | a status-200 answer whose `prices` list is empty | report it like a failed fetch and never raise | not executed; medium | `Market.PanelAsWritten` (shown by `Market.EmptySeriesCrashes`) | `Market.DashboardPanel` |
