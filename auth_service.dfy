/** The mock auth service (src/services/mock/MockAuthService.js): the user table
    in storage, login and registration cascades, the session token and user
    projection they store, profile reads and merges, and logout. */
module AuthService {
  import opened Common
  import opened Json
  import opened Text
  import opened Seqs
  import opened Storage
  import opened Session
  import MockData

  const CREDENTIALS_REQUIRED := "Email and password are required"
  const INVALID_EMAIL := "Please enter a valid email address"
  const USER_NOT_FOUND := "User not found"
  const INVALID_PASSWORD := "Invalid password"
  const ACCOUNT_DEACTIVATED := "Account is deactivated. Please contact support."
  const LOGIN_SUCCESSFUL := "Login successful"
  const LOGIN_FAILED := "Login failed. Please try again."
  const FIELDS_REQUIRED := "Email, password, first name, and last name are required"
  const PASSWORD_TOO_SHORT := "Password must be at least 6 characters long"
  const EMAIL_TAKEN := "An account with this email already exists"
  const ACCOUNT_CREATED := "Account created successfully"
  const REGISTRATION_FAILED := "Registration failed. Please try again."
  const INVALID_TOKEN := "Invalid or expired token"
  const PROFILE_UPDATED := "Profile updated successfully"
  const LOGGED_OUT := "Logged out successfully"

  /** The shortest password registration accepts. */
  const MIN_PASSWORD_LENGTH := 6

  /** The fields of a user that the client gets to see: everything but the
      password, the timestamps and the active flag. */
  const PROJECTION_KEYS: set<string> :=
    {"id", "email", "first_name", "last_name", "phone", "date_of_birth", "address",
     "insurance_info", "email_verified"}

  /** A signed-in session: the token and the user projection. */
  datatype SignedIn = SignedIn(token: string, user: Record)

  /** The registration form; every field is text, an empty one being absent. */
  datatype RegisterForm = RegisterForm(email: string, password: string, firstName: string,
                                       lastName: string, phone: string)

  // ---- users and their emails ----

  predicate HasStringEmail(u: Record) {
    Get(u, "email").Some? && Get(u, "email").value.Str?
  }

  /** The user's email text, or "" when it is not a string. */
  function EmailText(u: Record): string {
    if HasStringEmail(u) then Get(u, "email").value.s else ""
  }

  /** `u.email.toLowerCase() === email.toLowerCase()`, for a user with a string email. */
  predicate EmailIs(u: Record, email: string) {
    HasStringEmail(u) && ToLower(EmailText(u)) == ToLower(email)
  }

  /** The outcome of `users.find(u => u.email.toLowerCase() === ...)`: the first
      match, no match, or the TypeError thrown by a user without a string email
      reached before any match. */
  datatype UserSearch = Found(index: nat) | NotFound | Throws

  function FindByEmail(users: seq<Record>, email: string): (r: UserSearch)
    ensures r.Found? ==> r.index < |users| && EmailIs(users[r.index], email)
    ensures r.Found? ==> forall j :: 0 <= j < r.index ==> HasStringEmail(users[j]) && !EmailIs(users[j], email)
    ensures r.NotFound? <==> forall j :: 0 <= j < |users| ==> HasStringEmail(users[j]) && !EmailIs(users[j], email)
    ensures r.Throws? ==> exists j :: 0 <= j < |users| && !HasStringEmail(users[j])
  {
    FindFrom(users, email, 0)
  }

  /** The search from position `from` on. */
  function FindFrom(users: seq<Record>, email: string, from: nat): (r: UserSearch)
    requires from <= |users|
    ensures r.Found? ==> from <= r.index < |users| && EmailIs(users[r.index], email)
    ensures r.Found? ==> forall j :: from <= j < r.index ==> HasStringEmail(users[j]) && !EmailIs(users[j], email)
    ensures r.NotFound? <==> forall j :: from <= j < |users| ==> HasStringEmail(users[j]) && !EmailIs(users[j], email)
    ensures r.Throws? ==> exists j :: from <= j < |users| && !HasStringEmail(users[j])
    decreases |users| - from
  {
    if from == |users| then NotFound
    else if !HasStringEmail(users[from]) then Throws
    else if EmailIs(users[from], email) then Found(from)
    else FindFrom(users, email, from + 1)
  }

  /** Every user has a string email, and no two emails are equal ignoring case. */
  predicate EmailsUnique(users: seq<Record>) {
    && (forall i :: 0 <= i < |users| ==> HasStringEmail(users[i]))
    && (forall i, j :: 0 <= i < j < |users| ==> ToLower(EmailText(users[i])) != ToLower(EmailText(users[j])))
  }

  /** With unique emails the search never throws, and it finds a user exactly when
      one has the email. */
  lemma FindByEmailTotal(users: seq<Record>, email: string)
    requires EmailsUnique(users)
    ensures !FindByEmail(users, email).Throws?
    ensures FindByEmail(users, email).Found? <==> exists j :: 0 <= j < |users| && EmailIs(users[j], email)
  {
  }

  /** Two users with string emails that differ ignoring case have unique emails. */
  lemma TwoUsersEmailsUnique(users: seq<Record>, a: string, b: string)
    requires |users| == 2
    requires Get(users[0], "email") == Some(Str(a)) && Get(users[1], "email") == Some(Str(b))
    requires ToLower(a) != ToLower(b)
    ensures EmailsUnique(users)
  {
  }

  /** The seeded users have unique emails. */
  lemma FixtureEmailsUnique()
    ensures EmailsUnique(MockData.MOCK_USERS)
  {
    MockData.UserEmails();
    MockData.UserEmailsDistinct();
    TwoUsersEmailsUnique(MockData.MOCK_USERS, MockData.JOHN_EMAIL, MockData.JANE_EMAIL);
  }

  /** Appending a user whose email matches nobody's keeps emails unique. */
  lemma AppendKeepsEmailsUnique(users: seq<Record>, user: Record)
    requires EmailsUnique(users) && HasStringEmail(user)
    requires forall j :: 0 <= j < |users| ==> !EmailIs(users[j], EmailText(user))
    ensures EmailsUnique(users + [user])
  {
    var after := users + [user];
    forall i, j | 0 <= i < j < |after|
      ensures ToLower(EmailText(after[i])) != ToLower(EmailText(after[j]))
    {
      assert after[i] == users[i];
      if j < |users| {
        assert after[j] == users[j];
      } else {
        assert after[j] == user;
        assert !EmailIs(users[i], EmailText(user));
      }
    }
  }

  /** The user projection stored and returned on login and registration. Keys the
      user lacks stay absent, as JSON drops undefined fields. */
  function Project(u: Record): Record {
    map k | k in u && k in PROJECTION_KEYS :: u[k]
  }

  /** The projection never holds the password, holds exactly the visible fields
      the user has, and copies their values. */
  lemma ProjectKeepsVisibleFields(u: Record)
    ensures "password" !in Project(u)
    ensures Project(u).Keys <= PROJECTION_KEYS
    ensures forall k :: k in PROJECTION_KEYS ==> (k in Project(u) <==> k in u)
    ensures forall k :: k in Project(u) ==> Project(u)[k] == u[k]
  {
  }

  /** The id the token carries; a non-string id is carried as "". */
  function TokenUserId(u: Record): string {
    match Get(u, "id")
      case Some(Str(s)) => s
      case _ => ""
  }

  /** The user's token payload passes `btoa`. */
  predicate TokenEncodable(u: Record) {
    Latin1(TokenUserId(u)) && Latin1(EmailText(u))
  }

  // ---- login ----

  /** What `login(email, password)` answers. */
  function LoginOutcome(users: seq<Record>, email: string, password: string, now: int): (r: Response<SignedIn>)
    ensures r.Ok? ==> r.message == LOGIN_SUCCESSFUL && "password" !in r.data.user
  {
    if email == "" || password == "" then Err(CREDENTIALS_REQUIRED)
    else if !IsValidEmail(email) then Err(INVALID_EMAIL)
    else match FindByEmail(users, email)
      case Throws => Err(LOGIN_FAILED)
      case NotFound => Err(USER_NOT_FOUND)
      case Found(i) =>
        var user := users[i];
        if Get(user, "password") != Some(Str(password)) then Err(INVALID_PASSWORD)
        else if !Truthy(Get(user, "is_active")) then Err(ACCOUNT_DEACTIVATED)
        else match GenerateMockToken(TokenUserId(user), EmailText(user), now)
          case None => Err(LOGIN_FAILED)
          case Some(token) =>
            ProjectKeepsVisibleFields(user);
            Ok(LOGIN_SUCCESSFUL, SignedIn(token, Project(user)))
  }

  /** The login cascade, in order: missing credentials, malformed email, unknown
      email, wrong password, inactive account, and a token `btoa` cannot encode. */
  lemma LoginRejections(users: seq<Record>, email: string, password: string, now: int)
    ensures var r := LoginOutcome(users, email, password, now);
      && (email == "" || password == "" ==> r == Err(CREDENTIALS_REQUIRED))
      && (email != "" && password != "" && !IsValidEmail(email) ==> r == Err(INVALID_EMAIL))
      && (email != "" && password != "" && IsValidEmail(email) ==>
            match FindByEmail(users, email)
              case Throws => r == Err(LOGIN_FAILED)
              case NotFound => r == Err(USER_NOT_FOUND)
              case Found(i) =>
                && (Get(users[i], "password") != Some(Str(password)) ==> r == Err(INVALID_PASSWORD))
                && (Get(users[i], "password") == Some(Str(password)) && !Truthy(Get(users[i], "is_active")) ==>
                      r == Err(ACCOUNT_DEACTIVATED))
                && ((&& Get(users[i], "password") == Some(Str(password)) && Truthy(Get(users[i], "is_active"))
                     && !TokenEncodable(users[i])) ==> r == Err(LOGIN_FAILED)))
  {
  }

  /** A login succeeds exactly for the first user with the email, the right
      password, an active account and a payload `btoa` accepts; the session then
      holds a token for that user, valid for a day, and the user's projection. */
  lemma LoginSucceedsIff(users: seq<Record>, email: string, password: string, now: int, later: int)
    ensures var r := LoginOutcome(users, email, password, now);
      && (r.Ok? <==>
            && email != "" && password != "" && IsValidEmail(email)
            && FindByEmail(users, email).Found?
            && Get(users[FindByEmail(users, email).index], "password") == Some(Str(password))
            && Truthy(Get(users[FindByEmail(users, email).index], "is_active"))
            && TokenEncodable(users[FindByEmail(users, email).index]))
      && (r.Ok? ==>
            var user := users[FindByEmail(users, email).index];
            && r.data.user == Project(user)
            && Decode(r.data.token) == Some(Payload(TokenUserId(user), EmailText(user), now + TOKEN_LIFETIME))
            && (IsValidToken(Some(r.data.token), later) <==> later < now + TOKEN_LIFETIME))
  {
    var r := LoginOutcome(users, email, password, now);
    if r.Ok? {
      var user := users[FindByEmail(users, email).index];
      FreshTokenLifetime(TokenUserId(user), EmailText(user), now, later);
      assert Some(r.data.token) == GenerateMockToken(TokenUserId(user), EmailText(user), now);
    }
  }

  // ---- register ----

  /** The user record registration creates. */
  function NewUser(form: RegisterForm, newId: string, now: int): Record {
    map[
      "id" := Str(newId),
      "email" := Str(ToLower(form.email)),
      "password" := Str(form.password),
      "first_name" := Str(form.firstName),
      "last_name" := Str(form.lastName),
      "phone" := if form.phone == "" then Null else Str(form.phone),
      "date_of_birth" := Null,
      "address" := Null,
      "insurance_info" := Null,
      "created_at" := Num(now),
      "updated_at" := Num(now),
      "is_active" := Bool(true),
      "email_verified" := Bool(true)]
  }

  /** The new user has the lower-cased email, the given password, is active and
      verified, and has a null phone when none was given. */
  lemma NewUserFields(form: RegisterForm, newId: string, now: int)
    ensures var u := NewUser(form, newId, now);
      && HasStringEmail(u) && EmailText(u) == ToLower(form.email)
      && Get(u, "is_active") == Some(Bool(true)) && Get(u, "email_verified") == Some(Bool(true))
      && Get(u, "password") == Some(Str(form.password))
      && Get(u, "phone") == if form.phone == "" then Some(Null) else Some(Str(form.phone))
  {
  }

  /** What `register(userData)` answers and the user table it leaves. */
  function RegisterOutcome(users: seq<Record>, form: RegisterForm, newId: string, now: int)
    : (r: (Response<SignedIn>, seq<Record>))
    ensures r.0.Err? && r.1 != users ==> r.0 == Err(REGISTRATION_FAILED) && r.1 == users + [NewUser(form, newId, now)]
  {
    if form.email == "" || form.password == "" || form.firstName == "" || form.lastName == "" then
      (Err(FIELDS_REQUIRED), users)
    else if !IsValidEmail(form.email) then (Err(INVALID_EMAIL), users)
    else if Utf16Length(form.password) < MIN_PASSWORD_LENGTH then (Err(PASSWORD_TOO_SHORT), users)
    else match FindByEmail(users, form.email)
      case Found(_) => (Err(EMAIL_TAKEN), users)
      case Throws => (Err(REGISTRATION_FAILED), users)
      case NotFound => Registered(users, form, newId, now)
  }

  /** A registration that passed every check: the new user is appended and then
      signed in, or, when `btoa` cannot encode the token, the answer is a failure
      with the user already appended. */
  function Registered(users: seq<Record>, form: RegisterForm, newId: string, now: int)
    : (Response<SignedIn>, seq<Record>)
  {
    var user := NewUser(form, newId, now);
    match GenerateMockToken(newId, ToLower(form.email), now)
      case None => (Err(REGISTRATION_FAILED), users + [user])
      case Some(token) => (Ok(ACCOUNT_CREATED, SignedIn(token, Project(user))), users + [user])
  }

  /** The registration cascade, in order: a missing field, a malformed email, a
      short password, an email already taken ignoring case, and a token `btoa`
      cannot encode. */
  lemma RegisterRejections(users: seq<Record>, form: RegisterForm, newId: string, now: int)
    ensures var r := RegisterOutcome(users, form, newId, now).0;
      var filled := form.email != "" && form.password != "" && form.firstName != "" && form.lastName != "";
      && (!filled ==> r == Err(FIELDS_REQUIRED))
      && (filled && !IsValidEmail(form.email) ==> r == Err(INVALID_EMAIL))
      && (filled && IsValidEmail(form.email) && Utf16Length(form.password) < MIN_PASSWORD_LENGTH ==> r == Err(PASSWORD_TOO_SHORT))
      && (filled && IsValidEmail(form.email) && Utf16Length(form.password) >= MIN_PASSWORD_LENGTH ==>
            (r == Err(EMAIL_TAKEN) <==> FindByEmail(users, form.email).Found?)
            && (r.Ok? <==> FindByEmail(users, form.email).NotFound? && Latin1(newId) && Latin1(ToLower(form.email)))
            && (FindByEmail(users, form.email).NotFound? && !(Latin1(newId) && Latin1(ToLower(form.email))) ==>
                  r == Err(REGISTRATION_FAILED)))
  {
  }

  /** A password of three characters beyond U+FFFF is six code units long, so
      it is long enough. */
  lemma AstralPasswordIsLongEnough(a: char, b: char, c: char)
    requires a as int > 0xFFFF && b as int > 0xFFFF && c as int > 0xFFFF
    ensures Utf16Length([a, b, c]) >= MIN_PASSWORD_LENGTH
  {
    assert [a, b, c][1..] == [b, c];
    assert [b, c][1..] == [c];
    AstralCharLength(c);
  }

  /** A registration form that passes every check: all four fields present, a
      well-formed email, a long enough password. */
  predicate FormAccepted(form: RegisterForm) {
    && form.email != "" && form.password != "" && form.firstName != "" && form.lastName != ""
    && IsValidEmail(form.email) && Utf16Length(form.password) >= MIN_PASSWORD_LENGTH
  }

  /** A registration that changed the table passed every check and found the
      email free; a successful one also had a token `btoa` could encode. */
  lemma RegisterOkPassedChecks(users: seq<Record>, form: RegisterForm, newId: string, now: int)
    requires RegisterOutcome(users, form, newId, now).0.Ok? || RegisterOutcome(users, form, newId, now).1 != users
    ensures FormAccepted(form) && FindByEmail(users, form.email).NotFound?
    ensures RegisterOutcome(users, form, newId, now).1 == users + [NewUser(form, newId, now)]
    ensures RegisterOutcome(users, form, newId, now).0.Ok? ==> Latin1(newId) && Latin1(ToLower(form.email))
  {
  }

  /** An accepted form with a free email appends the user; it signs in exactly
      when the token can be encoded. */
  lemma AcceptedFormRegisters(users: seq<Record>, form: RegisterForm, newId: string, now: int)
    requires FormAccepted(form) && FindByEmail(users, form.email).NotFound?
    ensures RegisterOutcome(users, form, newId, now) == Registered(users, form, newId, now)
    ensures RegisterOutcome(users, form, newId, now).1 == users + [NewUser(form, newId, now)]
    ensures RegisterOutcome(users, form, newId, now).0.Ok? <==> Latin1(newId) && Latin1(ToLower(form.email))
  {
  }

  /** An accepted, free email with a character above U+00FF fails to register,
      yet the user is already appended to the table. */
  lemma WideEmailRegistersHalfway(users: seq<Record>, form: RegisterForm, newId: string, now: int, i: int)
    requires FormAccepted(form) && FindByEmail(users, form.email).NotFound?
    requires 0 <= i < |form.email| && form.email[i] as int > 0xFF
    ensures RegisterOutcome(users, form, newId, now) == (Err(REGISTRATION_FAILED), users + [NewUser(form, newId, now)])
  {
    assert ToLower(form.email)[i] == form.email[i];
    WideEmailHasNoToken(newId, ToLower(form.email), now, i);
  }

  /** A successful registration is the one that passed every check. */
  lemma RegisterOkIsAppend(users: seq<Record>, form: RegisterForm, newId: string, now: int)
    requires RegisterOutcome(users, form, newId, now).0.Ok?
    ensures RegisterOutcome(users, form, newId, now) == Registered(users, form, newId, now)
  {
    RegisterOkPassedChecks(users, form, newId, now);
    AcceptedFormRegisters(users, form, newId, now);
  }

  /** A successful registration appends exactly one user, active and verified,
      with the email lower-cased, and signs that user in. */
  lemma RegisterAppendsOne(users: seq<Record>, form: RegisterForm, newId: string, now: int)
    ensures var r := RegisterOutcome(users, form, newId, now);
      r.0.Ok? ==>
        && |r.1| == |users| + 1 && r.1[..|users|] == users
        && r.1[|users|] == NewUser(form, newId, now)
        && r.0.data.user == Project(r.1[|users|])
        && Decode(r.0.data.token) == Some(Payload(newId, ToLower(form.email), now + TOKEN_LIFETIME))
  {
    var r := RegisterOutcome(users, form, newId, now);
    if r.0.Ok? {
      RegisterOkIsAppend(users, form, newId, now);
      var user := NewUser(form, newId, now);
      assert (users + [user])[..|users|] == users;
    }
  }

  /** Registration keeps emails unique ignoring case. */
  lemma RegisterKeepsEmailsUnique(users: seq<Record>, form: RegisterForm, newId: string, now: int)
    requires EmailsUnique(users)
    ensures EmailsUnique(RegisterOutcome(users, form, newId, now).1)
  {
    var r := RegisterOutcome(users, form, newId, now);
    if r.1 != users {
      RegisterOkPassedChecks(users, form, newId, now);
      var user := NewUser(form, newId, now);
      NewUserFields(form, newId, now);
      ToLowerIdempotent(form.email);
      forall j | 0 <= j < |users|
        ensures !EmailIs(users[j], EmailText(user))
      {
        assert !EmailIs(users[j], form.email);
      }
      AppendKeepsEmailsUnique(users, user);
    }
  }

  /** Right after a registration, logging in with the same email and password
      succeeds, at any time. */
  lemma LoginAfterRegister(users: seq<Record>, form: RegisterForm, newId: string, now: int, later: int)
    requires RegisterOutcome(users, form, newId, now).0.Ok?
    ensures LoginOutcome(RegisterOutcome(users, form, newId, now).1, form.email, form.password, later).Ok?
  {
    RegisterOkPassedChecks(users, form, newId, now);
    NewUserMatchesLogin(form, newId, now);
    NewUserEncodable(form, newId, now);
    LoginAfterAppend(users, NewUser(form, newId, now), form.email, form.password, later);
  }

  /** A freshly registered user is found under the typed email, is active and
      holds the typed password. */
  lemma NewUserMatchesLogin(form: RegisterForm, newId: string, now: int)
    ensures var u := NewUser(form, newId, now);
      && EmailIs(u, form.email)
      && Get(u, "password") == Some(Str(form.password)) && Truthy(Get(u, "is_active"))
  {
    NewUserFields(form, newId, now);
    ToLowerIdempotent(form.email);
  }

  /** A freshly registered user can be signed exactly when `btoa` accepts its
      id and its lower-cased email. */
  lemma NewUserEncodable(form: RegisterForm, newId: string, now: int)
    ensures TokenEncodable(NewUser(form, newId, now)) <==> Latin1(newId) && Latin1(ToLower(form.email))
  {
    var u := NewUser(form, newId, now);
    NewUserFields(form, newId, now);
    assert TokenUserId(u) == newId;
  }

  /** A signable, active user with that password, appended behind a table in
      which the search found nobody, can log in. */
  lemma LoginAfterAppend(users: seq<Record>, user: Record, email: string, password: string, now: int)
    requires email != "" && password != "" && IsValidEmail(email)
    requires FindByEmail(users, email).NotFound? && EmailIs(user, email)
    requires Get(user, "password") == Some(Str(password)) && Truthy(Get(user, "is_active"))
    requires TokenEncodable(user)
    ensures LoginOutcome(users + [user], email, password, now).Ok?
  {
    FindAfterAppend(users, user, email);
    assert (users + [user])[|users|] == user;
  }

  /** A user appended behind a table in which the search found nobody is found. */
  lemma FindAfterAppend(users: seq<Record>, user: Record, email: string)
    requires FindByEmail(users, email).NotFound? && EmailIs(user, email)
    ensures FindByEmail(users + [user], email) == Found(|users|)
  {
    var after := users + [user];
    var found := FindByEmail(after, email);
    assert !found.NotFound? by {
      assert after[|users|] == user;
    }
    assert !found.Throws? by {
      forall j | 0 <= j < |after|
        ensures HasStringEmail(after[j])
      {
        if j < |users| {
          assert after[j] == users[j];
        }
      }
    }
  }

  // ---- profile ----

  /** `{...currentUser, ...profileData, updated_at}`. */
  function MergeProfile(current: Record, profileData: Record, now: int): (r: Record)
    ensures r.Keys == current.Keys + profileData.Keys + {"updated_at"}
    ensures r["updated_at"] == Num(now)
    ensures forall k :: k in profileData && k != "updated_at" ==> r[k] == profileData[k]
    ensures forall k :: k in current && k !in profileData && k != "updated_at" ==> r[k] == current[k]
  {
    Spread(Spread(current, profileData), map["updated_at" := Num(now)])
  }

  /** `users.findIndex(u => u.id === currentUser.id)`. */
  function UserIndex(users: seq<Record>, current: Record): (r: Option<nat>)
    ensures r.Some? ==> r.value < |users| && StrictEq(Get(users[r.value], "id"), Get(current, "id"))
    ensures r.Some? ==> forall j :: 0 <= j < r.value ==> !StrictEq(Get(users[j], "id"), Get(current, "id"))
    ensures r.None? <==> forall j :: 0 <= j < |users| ==> !StrictEq(Get(users[j], "id"), Get(current, "id"))
  {
    FindIndex(users, (u: Record) => StrictEq(Get(u, "id"), Get(current, "id")))
  }

  /** The user table after a profile update: the same merge applied to the user
      with the signed-in id, if there is one. */
  function UsersAfterUpdate(users: seq<Record>, current: Record, profileData: Record, now: int)
    : (r: seq<Record>)
    ensures |r| == |users|
    ensures UserIndex(users, current).None? ==> r == users
    ensures UserIndex(users, current).Some? ==>
      var i := UserIndex(users, current).value;
      r[i] == MergeProfile(users[i], profileData, now) && forall j :: 0 <= j < |users| && j != i ==> r[j] == users[j]
  {
    match UserIndex(users, current)
      case None => users
      case Some(i) => users[i := MergeProfile(users[i], profileData, now)]
  }

  /** A profile update that leaves the email alone keeps emails unique. */
  lemma UpdateKeepsEmailsUnique(users: seq<Record>, current: Record, profileData: Record, now: int)
    requires EmailsUnique(users) && "email" !in profileData
    ensures EmailsUnique(UsersAfterUpdate(users, current, profileData, now))
  {
    var r := UsersAfterUpdate(users, current, profileData, now);
    assert forall j :: 0 <= j < |users| ==> Get(r[j], "email") == Get(users[j], "email");
  }

  /** updateProfile does not re-check the email: setting the signed-in user's
      email to another user's, in any case, leaves two users with one email. */
  lemma UpdateMayDuplicateEmail(users: seq<Record>, current: Record, profileData: Record, now: int, other: nat)
    requires UserIndex(users, current).Some? && other < |users| && other != UserIndex(users, current).value
    requires HasStringEmail(users[other])
    requires Get(profileData, "email") == Some(Str(EmailText(users[other])))
    ensures !EmailsUnique(UsersAfterUpdate(users, current, profileData, now))
  {
    var i := UserIndex(users, current).value;
    var after := UsersAfterUpdate(users, current, profileData, now);
    assert EmailText(after[i]) == EmailText(after[other]);
    if i < other {
      assert ToLower(EmailText(after[i])) == ToLower(EmailText(after[other]));
    } else {
      assert ToLower(EmailText(after[other])) == ToLower(EmailText(after[i]));
    }
  }

  // ---- the service ----

  class MockAuthService {
    const storage: LocalStorage

    /** The constructor's `initializeMockUsers`: an empty (or unreadable) user table
        is seeded with the fixture users; a non-empty one is left alone. */
    constructor (storage: LocalStorage)
      modifies storage
      ensures this.storage == storage
      ensures UsersOf(old(storage.slots)) == [] ==>
        storage.slots == old(storage.slots)[Storage.MOCK_USERS := Stored(UserTable(MockData.MOCK_USERS))]
      ensures UsersOf(old(storage.slots)) != [] ==> storage.slots == old(storage.slots)
    {
      this.storage := storage;
      var existing := UsersOf(storage.slots);
      if |existing| == 0 {
        var _ := storage.SetItem(Storage.MOCK_USERS, UserTable(MockData.MOCK_USERS));
      }
    }

    /** `login(email, password)` at time `now`: stores the token and the user
        projection on success, nothing otherwise. */
    method Login(email: string, password: string, now: int) returns (r: Response<SignedIn>)
      modifies storage
      ensures r == LoginOutcome(UsersOf(old(storage.slots)), email, password, now)
      ensures r.Ok? ==>
        storage.slots == old(storage.slots)[AUTH_TOKEN := Stored(TokenText(r.data.token))]
                                           [USER_DATA := Stored(UserData(r.data.user))]
      ensures r.Err? ==> storage.slots == old(storage.slots)
    {
      if email == "" || password == "" {
        return Err(CREDENTIALS_REQUIRED);
      }
      if !IsValidEmail(email) {
        return Err(INVALID_EMAIL);
      }
      var users := UsersOf(storage.slots);
      var found := FindByEmail(users, email);
      if found.Throws? {
        return Err(LOGIN_FAILED);
      }
      if found.NotFound? {
        return Err(USER_NOT_FOUND);
      }
      var user := users[found.index];
      if Get(user, "password") != Some(Str(password)) {
        return Err(INVALID_PASSWORD);
      }
      if !Truthy(Get(user, "is_active")) {
        return Err(ACCOUNT_DEACTIVATED);
      }
      var token := GenerateMockToken(TokenUserId(user), EmailText(user), now);
      if token.None? {
        return Err(LOGIN_FAILED);
      }
      var _ := storage.SetItem(AUTH_TOKEN, TokenText(token.value));
      var _ := storage.SetItem(USER_DATA, UserData(Project(user)));
      r := Ok(LOGIN_SUCCESSFUL, SignedIn(token.value, Project(user)));
    }

    /** `register(userData)` with the generated id and the time given: appends the
        user, then stores the token and projection. A refusal by the checks writes
        nothing; a token `btoa` cannot encode fails after the table is written. */
    method Register(form: RegisterForm, newId: string, now: int) returns (r: Response<SignedIn>)
      modifies storage
      ensures r == RegisterOutcome(UsersOf(old(storage.slots)), form, newId, now).0
      ensures r.Ok? ==>
        storage.slots == old(storage.slots)
          [Storage.MOCK_USERS := Stored(UserTable(RegisterOutcome(UsersOf(old(storage.slots)), form, newId, now).1))]
          [AUTH_TOKEN := Stored(TokenText(r.data.token))]
          [USER_DATA := Stored(UserData(r.data.user))]
      ensures r.Err? && RegisterOutcome(UsersOf(old(storage.slots)), form, newId, now).1 == UsersOf(old(storage.slots)) ==>
        storage.slots == old(storage.slots)
      ensures r.Err? && RegisterOutcome(UsersOf(old(storage.slots)), form, newId, now).1 != UsersOf(old(storage.slots)) ==>
        storage.slots == old(storage.slots)
          [Storage.MOCK_USERS := Stored(UserTable(RegisterOutcome(UsersOf(old(storage.slots)), form, newId, now).1))]
    {
      if form.email == "" || form.password == "" || form.firstName == "" || form.lastName == "" {
        return Err(FIELDS_REQUIRED);
      }
      if !IsValidEmail(form.email) {
        return Err(INVALID_EMAIL);
      }
      if Utf16Length(form.password) < MIN_PASSWORD_LENGTH {
        return Err(PASSWORD_TOO_SHORT);
      }
      var users := UsersOf(storage.slots);
      var found := FindByEmail(users, form.email);
      if found.Found? {
        return Err(EMAIL_TAKEN);
      }
      if found.Throws? {
        return Err(REGISTRATION_FAILED);
      }
      var newUser := NewUser(form, newId, now);
      users := users + [newUser];
      var _ := storage.SetItem(Storage.MOCK_USERS, UserTable(users));
      var token := GenerateMockToken(newId, ToLower(form.email), now);
      if token.None? {
        return Err(REGISTRATION_FAILED);
      }
      var _ := storage.SetItem(AUTH_TOKEN, TokenText(token.value));
      var _ := storage.SetItem(USER_DATA, UserData(Project(newUser)));
      r := Ok(ACCOUNT_CREATED, SignedIn(token.value, Project(newUser)));
    }

    /** `getProfile(token)`: the stored projection, unchanged. */
    method GetProfile(token: Option<string>, now: int) returns (r: Response<Record>)
      ensures !IsValidToken(token, now) ==> r == Err(INVALID_TOKEN)
      ensures IsValidToken(token, now) && UserDataOf(storage.slots).None? ==> r == Err(USER_NOT_FOUND)
      ensures r.Ok? <==> IsValidToken(token, now) && UserDataOf(storage.slots).Some?
      ensures r.Ok? ==> r.data == UserDataOf(storage.slots).value
    {
      if !IsValidToken(token, now) {
        return Err(INVALID_TOKEN);
      }
      var userData := UserDataOf(storage.slots);
      if userData.None? {
        return Err(USER_NOT_FOUND);
      }
      r := Ok("", userData.value);
    }

    /** `updateProfile(token, profileData)` at time `now`: merges into the stored
        projection, then into the user with the same id, if any. */
    method UpdateProfile(token: Option<string>, profileData: Record, now: int) returns (r: Response<Record>)
      modifies storage
      ensures !IsValidToken(token, now) ==> r == Err(INVALID_TOKEN)
      ensures IsValidToken(token, now) && UserDataOf(old(storage.slots)).None? ==> r == Err(USER_NOT_FOUND)
      ensures r.Ok? <==> IsValidToken(token, now) && UserDataOf(old(storage.slots)).Some?
      ensures r.Err? ==> storage.slots == old(storage.slots)
      ensures r.Ok? ==>
        var current := UserDataOf(old(storage.slots)).value;
        var users := UsersOf(old(storage.slots));
        && r == Ok(PROFILE_UPDATED, MergeProfile(current, profileData, now))
        && storage.slots ==
             if UserIndex(users, current).Some? then
               old(storage.slots)[USER_DATA := Stored(UserData(r.data))]
                 [Storage.MOCK_USERS := Stored(UserTable(UsersAfterUpdate(users, current, profileData, now)))]
             else old(storage.slots)[USER_DATA := Stored(UserData(r.data))]
    {
      if !IsValidToken(token, now) {
        return Err(INVALID_TOKEN);
      }
      var currentUser := UserDataOf(storage.slots);
      if currentUser.None? {
        return Err(USER_NOT_FOUND);
      }
      var current := currentUser.value;
      var updatedUser := MergeProfile(current, profileData, now);
      var _ := storage.SetItem(USER_DATA, UserData(updatedUser));
      var users := UsersOf(storage.slots);
      assert users == UsersOf(old(storage.slots));
      var userIndex := UserIndex(users, current);
      if userIndex.Some? {
        var i := userIndex.value;
        users := users[i := MergeProfile(users[i], profileData, now)];
        var _ := storage.SetItem(Storage.MOCK_USERS, UserTable(users));
      }
      r := Ok(PROFILE_UPDATED, updatedUser);
    }

    /** `getCurrentUser(token)`: the stored projection while the token is valid. */
    method GetCurrentUser(token: Option<string>, now: int) returns (user: Option<Record>)
      ensures user.Some? <==> IsValidToken(token, now) && UserDataOf(storage.slots).Some?
      ensures user.Some? ==> user == UserDataOf(storage.slots)
    {
      if !IsValidToken(token, now) {
        return None;
      }
      user := UserDataOf(storage.slots);
    }

    /** `logout()`: removes the token, the user projection and the cart, and
        nothing else. */
    method Logout() returns (r: Response<()>)
      modifies storage
      ensures r == Ok(LOGGED_OUT, ())
      ensures storage.slots == old(storage.slots) - {AUTH_TOKEN, USER_DATA, CART_ITEMS}
    {
      var _ := storage.RemoveItem(AUTH_TOKEN);
      var _ := storage.RemoveItem(USER_DATA);
      var _ := storage.RemoveItem(CART_ITEMS);
      r := Ok(LOGGED_OUT, ());
    }
  }

  /** After logout no token, projection or cart is left, whatever was stored. */
  lemma LogoutSignsOut(slots: map<string, Slot>, now: int)
    ensures var after := slots - {AUTH_TOKEN, USER_DATA, CART_ITEMS};
      && UserDataOf(after).None? && CartOf(after) == []
      && Lookup(after, AUTH_TOKEN, None).None?
      && forall k :: k in slots && k !in {AUTH_TOKEN, USER_DATA, CART_ITEMS} ==> k in after && after[k] == slots[k]
  {
  }
}
