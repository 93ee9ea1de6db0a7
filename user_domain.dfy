/** The user record and its state machine: PENDING until the certification
    code handed out at registration is presented, then ACTIVE. Every
    transition returns a new record and never touches a store. */
module UserDomain {
  import opened Common

  datatype UserStatus = Pending | Active

  /** A registration request: address, display name and location. */
  datatype UserCreate = UserCreate(email: string, nickname: string, address: string)

  /** A profile update: both fields are always supplied and always overwrite. */
  datatype UserUpdate = UserUpdate(nickname: string, address: string)

  datatype User = User(
    id: Option<int>,             // absent until the store assigns one
    email: string,
    nickname: string,
    address: string,
    certificationCode: string,   // fixed at registration
    status: UserStatus,
    lastLoginAt: Option<int>)    // milliseconds; absent until the first login

  /** The fields no transition may change: identifier, address and code. */
  predicate SameIdentity(a: User, b: User) {
    a.id == b.id && a.email == b.email && a.certificationCode == b.certificationCode
  }

  /** Registration: the clock is not read and the code is the value the
      injected uuid holder supplies. */
  function From(create: UserCreate, uuid: string): (r: User)
    ensures r.id.None? && r.lastLoginAt.None?
    ensures r.email == create.email && r.nickname == create.nickname && r.address == create.address
    ensures r.status == Pending && r.certificationCode == uuid
  {
    User(None, create.email, create.nickname, create.address, uuid, Pending, None)
  }

  /** Profile update: nickname and address are replaced, nothing else moves. */
  function Update(u: User, upd: UserUpdate): (r: User)
    ensures SameIdentity(u, r) && r.status == u.status && r.lastLoginAt == u.lastLoginAt
    ensures r.nickname == upd.nickname && r.address == upd.address
  {
    u.(nickname := upd.nickname, address := upd.address)
  }

  /** Login at the injected clock reading `millis`, replacing any earlier time. */
  function Login(u: User, millis: int): (r: User)
    ensures SameIdentity(u, r) && r.status == u.status
    ensures r.nickname == u.nickname && r.address == u.address
    ensures r.lastLoginAt == Some(millis)
  {
    u.(lastLoginAt := Some(millis))
  }

  /** Certification: exact string comparison with the stored code; a match
      activates (whatever the current status), a mismatch fails and yields
      no new record. */
  function Certificate(u: User, code: string): (r: Result<User>)
    ensures r.Success? <==> code == u.certificationCode
    ensures r.Success? ==> r.value.status == Active && SameIdentity(u, r.value)
    ensures r.Success? ==> r.value.nickname == u.nickname && r.value.address == u.address
    ensures r.Success? ==> r.value.lastLoginAt == u.lastLoginAt
    ensures r.Failure? ==> r.error == CertificationCodeNotMatched
  {
    if code == u.certificationCode then Success(u.(status := Active))
    else Failure(CertificationCodeNotMatched)
  }

  /** The code handed out at registration is exactly the one that activates
      the new record; any other code is refused. */
  lemma RegistrationCodeActivates(create: UserCreate, uuid: string, code: string)
    ensures Certificate(From(create, uuid), code).Success? <==> code == uuid
    ensures code == uuid ==> Certificate(From(create, uuid), code).value.status == Active
  {
  }

  /** Certifying an ACTIVE record again with its code succeeds and changes nothing. */
  lemma CertificateIdempotent(u: User)
    requires u.status == Active
    ensures Certificate(u, u.certificationCode) == Success(u)
  {
  }

  /** Only the last of two profile updates is visible. */
  lemma LastUpdateWins(u: User, first: UserUpdate, second: UserUpdate)
    ensures Update(Update(u, first), second) == Update(u, second)
  {
  }

  /** Login and profile update touch disjoint fields, so their order does not matter. */
  lemma LoginCommutesWithUpdate(u: User, upd: UserUpdate, millis: int)
    ensures Login(Update(u, upd), millis) == Update(Login(u, millis), upd)
  {
  }

  /** One operation the service can apply to a stored record. */
  datatype Command =
    | ApplyUpdate(upd: UserUpdate)
    | ApplyLogin(millis: int)
    | ApplyCertificate(code: string)

  /** The record after one command; a refused certification keeps the record
      as it was, because the service then saves nothing. */
  function Apply(u: User, c: Command): (r: User)
    ensures SameIdentity(u, r)
  {
    match c
    case ApplyUpdate(upd) => Update(u, upd)
    case ApplyLogin(millis) => Login(u, millis)
    case ApplyCertificate(code) =>
      var r := Certificate(u, code);
      if r.Success? then r.value else u
  }

  /** The record after a history of commands, oldest first. */
  function Replay(u: User, cs: seq<Command>): (r: User)
    decreases |cs|
  {
    if cs == [] then u else Replay(Apply(u, cs[0]), cs[1..])
  }

  /** Over any history: identifier, address and code never change, and the
      record is ACTIVE exactly when it started ACTIVE or its own code was
      presented at some point. In particular ACTIVE never reverts to PENDING. */
  lemma {:induction false} ReplayLifecycle(u: User, cs: seq<Command>)
    ensures SameIdentity(u, Replay(u, cs))
    ensures Replay(u, cs).status == Active
            <==> u.status == Active || ApplyCertificate(u.certificationCode) in cs
    decreases |cs|
  {
    if cs != [] {
      var next := Apply(u, cs[0]);
      ReplayLifecycle(next, cs[1..]);
      assert cs == [cs[0]] + cs[1..];
      assert next.certificationCode == u.certificationCode;
      assert next.status == Active <==> u.status == Active || cs[0] == ApplyCertificate(u.certificationCode);
    }
  }
}
