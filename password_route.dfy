/** The password-change endpoint (`app/api/account/password/route.ts`): an
    early-return chain of checks, then the user's password hash is replaced.
    The signed-in user, password verification and hashing are inputs. */
module PasswordRoute {
  import opened Common
  import opened Store

  /** The parsed JSON body; a field the client left out is `None`. */
  datatype PasswordRequest = PasswordRequest(
    currentPassword: Option<string>,
    newPassword: Option<string>,
    confirmPassword: Option<string>)

  datatype PasswordResponse =
    | Updated
    | Unauthorized
    | FieldsRequired
    | PasswordsDiffer
    | TooShort
    | UserNotFound
    | WrongPassword
    | InternalError

  function HttpStatus(r: PasswordResponse): (code: int)
    ensures code == 200 <==> r == Updated
    ensures code == 401 <==> r == Unauthorized
    ensures code == 404 <==> r == UserNotFound
    ensures code == 500 <==> r == InternalError
    ensures code == 400 <==> r == FieldsRequired || r == PasswordsDiffer || r == TooShort || r == WrongPassword
  {
    match r
    case Updated => 200
    case Unauthorized => 401
    case UserNotFound => 404
    case InternalError => 500
    case _ => 400
  }

  predicate AllPresent(b: PasswordRequest) {
    StrTruthy(b.currentPassword) && StrTruthy(b.newPassword) && StrTruthy(b.confirmPassword)
  }

  /** The checks of the handler in their order. `body` is `None` when the
      request's JSON cannot be read (the catch answers 500); `verify` stands
      for `verifyPassword(plain, hash)`. */
  function Decide(currentUser: Option<int>, body: Option<PasswordRequest>, users: map<int, User>,
                  verify: (string, string) -> bool): PasswordResponse
  {
    if currentUser.None? then Unauthorized
    else if body.None? then InternalError
    else
      var b := body.value;
      if !AllPresent(b) then FieldsRequired
      else if b.newPassword.value != b.confirmPassword.value then PasswordsDiffer
      else if Utf16Length(b.newPassword.value) < 8 then TooShort
      else if currentUser.value !in users then UserNotFound
      else if !verify(b.currentPassword.value, users[currentUser.value].passwordHash) then WrongPassword
      else Updated
  }

  /** All that lets a change through, both ways. */
  lemma UpdatedIff(currentUser: Option<int>, body: Option<PasswordRequest>, users: map<int, User>,
                   verify: (string, string) -> bool)
    ensures Decide(currentUser, body, users, verify) == Updated <==>
      && currentUser.Some? && body.Some? && AllPresent(body.value)
      && body.value.newPassword == body.value.confirmPassword
      && Utf16Length(body.value.newPassword.value) >= 8
      && currentUser.value in users
      && verify(body.value.currentPassword.value, users[currentUser.value].passwordHash)
  {
  }

  /** Without a signed-in user the answer is 401, whatever the body holds. */
  lemma SignedOutIsUnauthorized(body: Option<PasswordRequest>, users: map<int, User>, verify: (string, string) -> bool)
    ensures Decide(None, body, users, verify) == Unauthorized
  {
  }

  /** Two different new passwords are reported as such even when they are too short. */
  lemma MismatchBeforeLength(id: int, b: PasswordRequest, users: map<int, User>, verify: (string, string) -> bool)
    requires AllPresent(b) && b.newPassword != b.confirmPassword
    ensures Decide(Some(id), Some(b), users, verify) == PasswordsDiffer
  {
  }

  /** A user who changes the password and whose new hash verifies against
      the new password can sign the next change with it. */
  lemma NewPasswordIsCurrentAfterwards(id: int, b: PasswordRequest, next: PasswordRequest, users: map<int, User>,
                                       verify: (string, string) -> bool, hash: string -> string)
    requires Decide(Some(id), Some(b), users, verify) == Updated
    requires verify(b.newPassword.value, hash(b.newPassword.value))
    requires next.currentPassword == b.newPassword
    requires StrTruthy(next.newPassword) && next.newPassword == next.confirmPassword
    requires Utf16Length(next.newPassword.value) >= 8
    ensures Decide(Some(id), Some(next), users[id := users[id].(passwordHash := hash(b.newPassword.value))], verify) == Updated
  {
  }

  /** `POST`: decides, and on success stores `hash(newPassword)` as the user's
      hash and changes nothing else. */
  method ChangePassword(db: Db, currentUser: Option<int>, body: Option<PasswordRequest>,
                        verify: (string, string) -> bool, hash: string -> string)
    returns (response: PasswordResponse)
    modifies db
    ensures response == Decide(currentUser, body, old(db.users), verify)
    ensures response == Updated ==>
      db.users == old(db.users)[currentUser.value := old(db.users)[currentUser.value].(passwordHash := hash(body.value.newPassword.value))]
    ensures response != Updated ==> db.users == old(db.users)
    ensures db.products == old(db.products) && db.variants == old(db.variants)
    ensures db.orders == old(db.orders) && db.settingsRows == old(db.settingsRows)
  {
    if currentUser.None? {
      return Unauthorized;
    }
    if body.None? {
      return InternalError;
    }
    var b := body.value;
    if !AllPresent(b) {
      return FieldsRequired;
    }
    if b.newPassword.value != b.confirmPassword.value {
      return PasswordsDiffer;
    }
    if Utf16Length(b.newPassword.value) < 8 {
      return TooShort;
    }
    var id := currentUser.value;
    if id !in db.users {
      return UserNotFound;
    }
    var userRecord := db.users[id];
    if !verify(b.currentPassword.value, userRecord.passwordHash) {
      return WrongPassword;
    }
    var newHash := hash(b.newPassword.value);
    db.users := db.users[id := userRecord.(passwordHash := newHash)];
    response := Updated;
  }
}
