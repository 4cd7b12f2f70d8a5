/** User sign-up (src/users/users.service.ts): a check-then-insert over the
    user table. The table itself does not make nicknames unique; sign-up
    keeps them unique when calls run one at a time. */
module Users {
  import opened Wrappers

  /** A stored user; the `id` is assigned by the table. */
  datatype User = User(id: nat, nickname: string, password: string)

  datatype CreateUserDto = CreateUserDto(nickname: string, password: string, passwordConfirm: string)

  /** What `signUp` answers: the saved row's id and nickname. */
  datatype SignUpReply = SignUpReply(id: nat, nickname: string)

  /** What `signUp` throws: `BadRequestException` for a mismatch,
      `ConflictException` for a taken nickname, or the error of a `save`
      that the database refused (a lost connection). */
  datatype SignUpError = PasswordMismatch | NicknameTaken | SaveFailed

  /** The password hash, a parameter of the model: password and salt rounds
      to the stored digest. */
  type Hasher = (string, nat) -> string

  const SaltRounds: nat := 10

  predicate HasNickname(users: seq<User>, nickname: string)
  {
    exists i :: 0 <= i < |users| && users[i].nickname == nickname
  }

  predicate UniqueNicknames(users: seq<User>)
  {
    forall i, j :: 0 <= i < j < |users| ==> users[i].nickname != users[j].nickname
  }

  /** `findOne({ where: { nickname } })`, taking the earliest matching row. */
  function FirstWithNickname(users: seq<User>, nickname: string): (r: Option<User>)
    ensures r.None? <==> !HasNickname(users, nickname)
    ensures r.Some? ==> r.value in users && r.value.nickname == nickname
  {
    if |users| == 0 then None
    else if users[0].nickname == nickname then Some(users[0])
    else
      var rest := FirstWithNickname(users[1..], nickname);
      assert HasNickname(users, nickname) ==> HasNickname(users[1..], nickname) by {
        if HasNickname(users, nickname) {
          var i :| 0 <= i < |users| && users[i].nickname == nickname;
          assert users[1..][i - 1] == users[i];
        }
      }
      assert HasNickname(users[1..], nickname) ==> HasNickname(users, nickname) by {
        if HasNickname(users[1..], nickname) {
          var i :| 0 <= i < |users[1..]| && users[1..][i].nickname == nickname;
          assert users[i + 1] == users[1..][i];
        }
      }
      rest
  }

  /** With unique nicknames the lookup is the one user of that nickname. */
  lemma FirstWithNicknameUnique(users: seq<User>, i: nat)
    requires UniqueNicknames(users) && i < |users|
    ensures FirstWithNickname(users, users[i].nickname) == Some(users[i])
  {
    var r := FirstWithNickname(users, users[i].nickname);
    var j :| 0 <= j < |users| && users[j] == r.value;
    assert j == i;
  }

  class UsersService {
    var users: seq<User>
    var nextId: nat

    /** Every id is below the next one the table hands out, and ids are
        distinct. */
    ghost predicate Valid()
      reads this
    {
      && (forall i :: 0 <= i < |users| ==> users[i].id < nextId)
      && (forall i, j :: 0 <= i < j < |users| ==> users[i].id != users[j].id)
    }

    constructor ()
      ensures Valid() && users == [] && nextId == 1
    {
      users := [];
      nextId := 1;
    }

    /** `findByNickname`: null exactly when no user has the nickname. */
    method FindByNickname(nickname: string) returns (r: Option<User>)
      ensures r.None? <==> !HasNickname(users, nickname)
      ensures r.Some? ==> r.value in users && r.value.nickname == nickname
    {
      r := FirstWithNickname(users, nickname);
    }

    /** `signUp`: a password mismatch is reported first, even for a taken
        nickname; then a taken nickname; otherwise exactly one user is added
        with the hashed password, and its id and nickname are returned,
        unless the save itself fails. Nothing is stored on any error. */
    method SignUp(dto: CreateUserDto, hash: Hasher, saveFault: bool) returns (r: Result<SignUpReply, SignUpError>)
      requires Valid()
      modifies this
      ensures Valid()
      ensures dto.password != dto.passwordConfirm ==> r == Err(PasswordMismatch)
      ensures dto.password == dto.passwordConfirm && HasNickname(old(users), dto.nickname) ==> r == Err(NicknameTaken)
      ensures r.Err? ==> users == old(users) && nextId == old(nextId)
      ensures dto.password == dto.passwordConfirm && !HasNickname(old(users), dto.nickname) && saveFault ==>
        r == Err(SaveFailed)
      ensures r.Ok? <==> dto.password == dto.passwordConfirm && !HasNickname(old(users), dto.nickname) && !saveFault
      ensures r.Ok? ==>
        && users == old(users) + [User(old(nextId), dto.nickname, hash(dto.password, SaltRounds))]
        && r.value == SignUpReply(old(nextId), dto.nickname)
      ensures UniqueNicknames(old(users)) ==> UniqueNicknames(users)
    {
      if dto.password != dto.passwordConfirm {
        return Err(PasswordMismatch);
      }
      var existing := FindByNickname(dto.nickname);
      if existing.Some? {
        return Err(NicknameTaken);
      }
      var hashedPassword := hash(dto.password, SaltRounds);
      if saveFault {
        return Err(SaveFailed);
      }
      var user := User(nextId, dto.nickname, hashedPassword);
      AppendKeepsUnique(users, user);
      users := users + [user];
      nextId := nextId + 1;
      r := Ok(SignUpReply(user.id, user.nickname));
    }
  }

  lemma AppendKeepsUnique(users: seq<User>, user: User)
    requires !HasNickname(users, user.nickname)
    ensures UniqueNicknames(users) ==> UniqueNicknames(users + [user])
  {
    var s := users + [user];
    if UniqueNicknames(users) {
      forall i, j | 0 <= i < j < |s| ensures s[i].nickname != s[j].nickname {
        if j == |users| {
          assert s[i] == users[i];
        } else {
          assert s[i] == users[i] && s[j] == users[j];
        }
      }
    }
  }
}
