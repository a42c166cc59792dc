/**
 * The demo admin gate (pages/admin/login.tsx): a two-state session decided
 * only by whether the `gyampo_admin_auth` entry is present, entered by
 * submitting one fixed username/password pair.
 */
module AdminLogin {
  import opened Wrappers
  import opened SampleData

  const AdminUsername := "admin"
  const AdminPassword := "12345678"
  const InvalidCredentialsMessage := "Invalid username or password"
  const LoginFailedMessage := "Login failed. Please try again."

  /** The pages the admin gate sends the browser to. */
  datatype Route = LoginRoute | DashboardRoute

  datatype Credentials = Credentials(username: string, password: string)

  /** The form's two named inputs. */
  datatype CredentialField = Username | Password

  /** The sentinel written on login; only its presence is ever checked. */
  datatype AuthRecord = AuthRecord(username: string, loginTime: string)

  datatype Session = Anonymous | Authenticated

  /** The session a store denotes: authenticated exactly when the auth entry is present. */
  function SessionOf(items: map<string, string>): (s: Session)
    ensures s == Authenticated <==> AdminAuthKey in items && items[AdminAuthKey] != ""
  {
    if Present(items, AdminAuthKey) then Authenticated else Anonymous
  }

  /** The credential check: both fields must equal the fixed literals exactly. */
  predicate Accepts(c: Credentials) {
    c.username == AdminUsername && c.password == AdminPassword
  }

  /** `{...prev, [name]: value}`: one credential replaced, the other kept. */
  function WithField(c: Credentials, field: CredentialField, value: string): (r: Credentials)
    ensures field == Username ==> r.username == value && r.password == c.password
    ensures field == Password ==> r.password == value && r.username == c.username
  {
    match field
    case Username => c.(username := value)
    case Password => c.(password := value)
  }

  /** The only credentials that are accepted are ("admin", "12345678"). */
  lemma AcceptsExactly(c: Credentials)
    ensures Accepts(c) <==> c == Credentials("admin", "12345678")
  {
  }

  /** Writing the sentinel authenticates the session, whatever was stored before. */
  lemma LoginAuthenticates(items: map<string, string>, record: AuthRecord, codec: Codec<AuthRecord>)
    requires Lawful(codec)
    ensures SessionOf(items[AdminAuthKey := codec.encode(record)]) == Authenticated
  {
  }

  /** Removing the sentinel ends the session. */
  lemma LogoutEndsSession(items: map<string, string>)
    ensures SessionOf(items - {AdminAuthKey}) == Anonymous
  {
  }

  /**
   * Seeding the datasets and writing the catalogs over them, for any subset
   * `ks` of the dataset keys, leave the session as it was.
   */
  lemma DatasetWritesKeepSession(items: map<string, string>, catalog: Datasets, codecs: DatasetCodecs, ks: set<string>)
    ensures SessionOf(Seeded(items, Restrict(DatasetEntries(catalog, codecs), ks))) == SessionOf(items)
    ensures SessionOf(items + Restrict(DatasetEntries(catalog, codecs), ks)) == SessionOf(items)
  {
    StorageKeysDistinct();
    SeedingLeavesAuth(items, catalog, codecs, ks);
  }

  /** The login page's state. */
  class LoginPage {
    var credentials: Credentials
    var isLoading: bool
    var error: string
    /** Where `router.push` last sent the browser, if anywhere. */
    var redirect: Option<Route>

    constructor ()
      ensures credentials == Credentials("", "") && !isLoading && error == "" && redirect == None
    {
      credentials := Credentials("", "");
      isLoading := false;
      error := "";
      redirect := None;
    }

    /** The mount effect: an existing session goes straight to the dashboard. */
    method OnMount(store: LocalStore)
      requires store.available
      modifies this`redirect
      ensures redirect == if SessionOf(store.items) == Authenticated then Some(DashboardRoute) else old(redirect)
    {
      if store.Has(AdminAuthKey) {
        redirect := Some(DashboardRoute);
      }
    }

    /** `handleInputChange`: replaces the named field and clears the error. */
    method HandleInputChange(field: CredentialField, value: string)
      modifies this`credentials, this`error
      ensures credentials == WithField(old(credentials), field, value)
      ensures error == ""
    {
      credentials := WithField(credentials, field, value);
      error := "";
    }

    /**
     * `handleSubmit` up to its `await`: loading starts and the error is
     * cleared. `submitted` is the credentials the handler's closure holds.
     */
    method BeginSubmit() returns (submitted: Credentials)
      modifies this`isLoading, this`error
      ensures isLoading && error == ""
      ensures submitted == credentials
    {
      isLoading := true;
      error := "";
      submitted := credentials;
    }

    /**
     * `handleSubmit` after its `await`: on a match the sentinel is written
     * (with the submitted username and `loginTime`) and the browser goes to
     * the dashboard; a mismatch sets the error and writes nothing; a write
     * the browser refuses is caught as a failed login. Loading ends in every case.
     */
    method FinishSubmit(submitted: Credentials, store: LocalStore, codec: Codec<AuthRecord>, loginTime: string)
      requires store.available
      modifies this`isLoading, this`error, this`redirect, store
      ensures !isLoading
      ensures Accepts(submitted) && AdminAuthKey !in store.refused ==>
        store.items == old(store.items)[AdminAuthKey := codec.encode(AuthRecord(submitted.username, loginTime))] &&
        redirect == Some(DashboardRoute) && error == old(error)
      ensures Accepts(submitted) && AdminAuthKey in store.refused ==>
        store.items == old(store.items) && redirect == old(redirect) && error == LoginFailedMessage
      ensures !Accepts(submitted) ==>
        store.items == old(store.items) && redirect == old(redirect) && error == InvalidCredentialsMessage
    {
      if submitted.username == AdminUsername && submitted.password == AdminPassword {
        var ok := store.SetItem(AdminAuthKey, codec.encode(AuthRecord(submitted.username, loginTime)));
        if ok {
          redirect := Some(DashboardRoute);
        } else {
          error := LoginFailedMessage;
        }
      } else {
        error := InvalidCredentialsMessage;
      }
      isLoading := false;
    }
  }
}
