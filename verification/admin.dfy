/** The checks of the admin service (backend/services/admin_service.go): editing a user,
    clamping the paging of a room's operations, and collecting the distinct user ids of a
    page of membership history. The users table is a map; password hashing is a parameter. */
module Admin {
  import opened Common
  import opened Models

  // ---------------------------------------------------------------------------
  // Lengths as Go measures them
  // ---------------------------------------------------------------------------

  /** The number of bytes UTF-8 uses for one code point. */
  function RuneBytes(c: char): (n: nat)
    ensures 1 <= n <= 4
    ensures n == 1 <==> c as int < 0x80
  {
    if c as int < 0x80 then 1 else if c as int < 0x800 then 2 else if c as int < 0x10000 then 3 else 4
  }

  /** len(s) in Go: the length of the UTF-8 encoding. */
  function ByteLen(s: string): nat {
    if |s| == 0 then 0 else RuneBytes(s[0]) + ByteLen(s[1..])
  }

  /** A string never has fewer bytes than characters, and exactly as many when all of its
      characters are ASCII. */
  lemma {:induction false} ByteLenBounds(s: string)
    ensures ByteLen(s) >= |s|
    ensures ByteLen(s) == |s| <==> forall i :: 0 <= i < |s| ==> s[i] as int < 0x80
  {
    if |s| > 0 {
      ByteLenBounds(s[1..]);
      assert forall i :: 1 <= i < |s| ==> s[i] == s[1..][i - 1];
    }
  }

  // ---------------------------------------------------------------------------
  // UpdateUser
  // ---------------------------------------------------------------------------

  /** isAllDigits: every character is '0'..'9'; the empty string passes. */
  method IsAllDigits(value: string) returns (b: bool)
    ensures b <==> AllDigits(value)
  {
    var i := 0;
    while i < |value|
      invariant 0 <= i <= |value|
      invariant forall k :: 0 <= k < i ==> IsDigit(value[k])
    {
      if value[i] < '0' || value[i] > '9' {
        return false;
      }
      i := i + 1;
    }
    return true;
  }

  datatype User = User(id: UserId, phone: string, nickname: string, role: string, passwordHash: string)

  datatype UpdateUserInput = UpdateUserInput(phone: string, nickname: string, role: string, password: Option<string>)

  datatype AdminError =
    | UserNotFound
    | InvalidPhone
    | InvalidNickname
    | InvalidRole
    | PhoneAlreadyExists
    | InvalidPassword

  /** A trimmed phone is accepted: non-empty, 11 bytes long and all digits. */
  predicate PhoneOk(phone: string) {
    phone != "" && ByteLen(phone) == 11 && AllDigits(phone)
  }

  /** A trimmed nickname is accepted: non-empty and at most 50 code points. */
  predicate NicknameOk(nickname: string) {
    nickname != "" && |nickname| <= 50
  }

  predicate RoleOk(role: string) {
    role == "admin" || role == "user"
  }

  /** A trimmed password is accepted: non-empty and at least 6 bytes long. */
  predicate PasswordOk(password: string) {
    password != "" && ByteLen(password) >= 6
  }

  /** Another user already has the phone. */
  predicate PhoneTaken(users: map<UserId, User>, phone: string, id: UserId) {
    exists k :: k in users && k != id && users[k].phone == phone
  }

  /** No two users share a phone. */
  predicate PhonesUnique(users: map<UserId, User>) {
    forall a, b :: a in users && b in users && a != b ==> users[a].phone != users[b].phone
  }

  /** UpdateUser: the user must exist before anything is checked; then the trimmed phone,
      nickname and role, a phone conflict only when the phone changes, and a supplied
      password. An accepted edit rewrites that one user, and its password hash only when a
      password was supplied. */
  function UpdateUser(users: map<UserId, User>, id: UserId, input: UpdateUserInput, hash: string -> string)
    : (r: Result<(map<UserId, User>, User), AdminError>)
    ensures id !in users ==> r == Err(UserNotFound)
    ensures r.Ok? ==> var (after, user) := r.value;
              && after == users[id := user]
              && PhoneOk(user.phone) && Trimmed(user.phone)
              && NicknameOk(user.nickname) && Trimmed(user.nickname)
              && RoleOk(user.role)
              && user.id == users[id].id
              && (input.password.None? ==> user.passwordHash == users[id].passwordHash)
              && (user.phone != users[id].phone ==> !PhoneTaken(users, user.phone, id))
    ensures r.Ok? ==> r.value.1 == users[id].(phone := TrimSpace(input.phone),
                                              nickname := TrimSpace(input.nickname),
                                              role := TrimSpace(input.role),
                                              passwordHash := if input.password.Some?
                                                              then hash(TrimSpace(input.password.value))
                                                              else users[id].passwordHash)
  {
    if id !in users then Err(UserNotFound)
    else
      var user := users[id];
      var phone := TrimSpace(input.phone);
      var nickname := TrimSpace(input.nickname);
      var role := TrimSpace(input.role);
      TrimSpaceIsTrimmed(input.phone);
      TrimSpaceIsTrimmed(input.nickname);
      if !PhoneOk(phone) then Err(InvalidPhone)
      else if !NicknameOk(nickname) then Err(InvalidNickname)
      else if !RoleOk(role) then Err(InvalidRole)
      else if phone != user.phone && PhoneTaken(users, phone, id) then Err(PhoneAlreadyExists)
      else if input.password.Some? && !PasswordOk(TrimSpace(input.password.value)) then Err(InvalidPassword)
      else
        var hashed := if input.password.Some? then hash(TrimSpace(input.password.value)) else user.passwordHash;
        var updated := user.(phone := phone, nickname := nickname, role := role, passwordHash := hashed);
        Ok((users[id := updated], updated))
  }

  /** The phone rule in characters: exactly 11 decimal digits. */
  lemma PhoneOkIsElevenDigits(phone: string)
    ensures PhoneOk(phone) <==> |phone| == 11 && AllDigits(phone)
  {
    ByteLenBounds(phone);
  }

  /** An edit never lets two users share a phone. */
  lemma UpdateKeepsPhonesUnique(users: map<UserId, User>, id: UserId, input: UpdateUserInput, hash: string -> string)
    requires PhonesUnique(users)
    ensures UpdateUser(users, id, input, hash).Ok? ==> PhonesUnique(UpdateUser(users, id, input, hash).value.0)
  {
    var r := UpdateUser(users, id, input, hash);
    if r.Ok? {
      var (after, user) := r.value;
      forall a, b | a in after && b in after && a != b
        ensures after[a].phone != after[b].phone
      {
        if a == id && user.phone != users[id].phone {
          assert !PhoneTaken(users, user.phone, id);
          assert users[b].phone != user.phone;
        } else if b == id && user.phone != users[id].phone {
          assert !PhoneTaken(users, user.phone, id);
          assert users[a].phone != user.phone;
        }
      }
    }
  }

  /** The checks come in order: the first that fails names the error. */
  lemma UpdateUserErrors(users: map<UserId, User>, id: UserId, input: UpdateUserInput, hash: string -> string)
    requires id in users
    ensures var r := UpdateUser(users, id, input, hash);
            && (!PhoneOk(TrimSpace(input.phone)) ==> r == Err(InvalidPhone))
            && (PhoneOk(TrimSpace(input.phone)) && !NicknameOk(TrimSpace(input.nickname)) ==> r == Err(InvalidNickname))
            && (PhoneOk(TrimSpace(input.phone)) && NicknameOk(TrimSpace(input.nickname)) && !RoleOk(TrimSpace(input.role))
                ==> r == Err(InvalidRole))
            && (r.Ok? <==> PhoneOk(TrimSpace(input.phone)) && NicknameOk(TrimSpace(input.nickname))
                           && RoleOk(TrimSpace(input.role))
                           && (TrimSpace(input.phone) == users[id].phone || !PhoneTaken(users, TrimSpace(input.phone), id))
                           && (input.password.Some? ==> PasswordOk(TrimSpace(input.password.value))))
  {
  }

  // ---------------------------------------------------------------------------
  // Paging and ids
  // ---------------------------------------------------------------------------

  /** The largest page of operations GetRoomDetails serves. */
  const MaxPageSize: int := 200

  /** The page size when none is asked for. */
  const DefaultPageSize: int := 20

  /** GetRoomDetails: a page below 1 becomes 1; a page size below 1 becomes 20 and one above
      200 becomes 200. */
  function ClampOperationPage(page: int, pageSize: int): (r: (int, int))
    ensures r.0 >= 1 && 1 <= r.1 <= MaxPageSize
    ensures page >= 1 ==> r.0 == page
    ensures 1 <= pageSize <= MaxPageSize ==> r.1 == pageSize
    ensures page <= 0 ==> r.0 == 1
    ensures pageSize <= 0 ==> r.1 == DefaultPageSize
    ensures pageSize > MaxPageSize ==> r.1 == MaxPageSize
    ensures (r.0 - 1) * r.1 >= 0
  {
    var p := if page <= 0 then 1 else page;
    var size := if pageSize <= 0 then DefaultPageSize else if pageSize > MaxPageSize then MaxPageSize else pageSize;
    (p, size)
  }

  /** Clamping an already clamped page changes nothing. */
  lemma ClampIdempotent(page: int, pageSize: int)
    ensures var r := ClampOperationPage(page, pageSize);
            ClampOperationPage(r.0, r.1) == r
  {
  }

  /** The ids an operation row names. */
  datatype OperationIds = OperationIds(room: RoomId, actor: UserId, target: Option<UserId>)

  function Actors(ops: seq<OperationIds>): set<UserId> {
    set k | 0 <= k < |ops| :: ops[k].actor
  }

  function Targets(ops: seq<OperationIds>): set<UserId> {
    set k | 0 <= k < |ops| && ops[k].target.Some? :: ops[k].target.value
  }

  function RoomsOf(ops: seq<OperationIds>): set<RoomId> {
    set k | 0 <= k < |ops| :: ops[k].room
  }

  /** The first loop of GetRoomMemberHistory's id collection: the sets of rooms, actors and
      targets named by a page of operations. */
  method CollectOperationIds(ops: seq<OperationIds>) returns (roomIds: set<RoomId>, actors: set<UserId>, targets: set<UserId>)
    ensures roomIds == RoomsOf(ops) && actors == Actors(ops) && targets == Targets(ops)
  {
    roomIds, actors, targets := {}, {}, {};
    var k := 0;
    while k < |ops|
      invariant 0 <= k <= |ops|
      invariant roomIds == RoomsOf(ops[..k])
      invariant actors == Actors(ops[..k])
      invariant targets == Targets(ops[..k])
    {
      assert ops[..k + 1][..k] == ops[..k];
      assert ops[..k + 1][k] == ops[k];
      roomIds := roomIds + {ops[k].room};
      actors := actors + {ops[k].actor};
      if ops[k].target.Some? {
        targets := targets + {ops[k].target.value};
      }
      k := k + 1;
    }
    assert ops[..k] == ops;
  }

  /** The id list: every actor once, then every target that is not an actor, so the list
      holds each named user exactly once. */
  method DistinctUserIds(actors: set<UserId>, targets: set<UserId>) returns (ids: seq<UserId>)
    ensures forall i, j :: 0 <= i < j < |ids| ==> ids[i] != ids[j]
    ensures forall u :: u in ids <==> u in actors || u in targets
  {
    ids := [];
    var todo := actors;
    while todo != {}
      invariant todo <= actors
      invariant forall u :: u in ids <==> u in actors && u !in todo
      invariant forall i, j :: 0 <= i < j < |ids| ==> ids[i] != ids[j]
      decreases |todo|
    {
      var u :| u in todo;
      ids := ids + [u];
      todo := todo - {u};
    }
    todo := targets;
    while todo != {}
      invariant todo <= targets
      invariant forall u :: u in ids <==> u in actors || (u in targets && u !in todo)
      invariant forall i, j :: 0 <= i < j < |ids| ==> ids[i] != ids[j]
      decreases |todo|
    {
      var u :| u in todo;
      if u !in actors {
        ids := ids + [u];
      }
      todo := todo - {u};
    }
  }

  /** GetRoomMemberHistory's id collection: the rooms of the page and the distinct user ids
      it names, as actor or as target. */
  method UniqueUserIds(ops: seq<OperationIds>) returns (roomIds: set<RoomId>, ids: seq<UserId>)
    ensures roomIds == RoomsOf(ops)
    ensures forall i, j :: 0 <= i < j < |ids| ==> ids[i] != ids[j]
    ensures forall u :: u in ids <==> u in Actors(ops) || u in Targets(ops)
  {
    var actors, targets;
    roomIds, actors, targets := CollectOperationIds(ops);
    ids := DistinctUserIds(actors, targets);
  }
}
