/** The user endpoints as calls into the lifecycle service. Response shaping
    (which fields each view shows) and HTTP status codes are not modelled:
    each endpoint yields the domain record or the failure it raises. */
module Controller {
  import opened Common
  import opened UserDomain
  import opened UserRequest
  import opened Store
  import opened Service

  class UserController {
    const service: UserService

    ghost predicate Valid()
      reads this, service, service.repository
    {
      service.Valid()
    }

    constructor (service: UserService)
      ensures this.service == service
    {
      this.service := service;
    }

    /** Another user's profile: the stored ACTIVE record, unchanged. */
    method GetUserById(id: int) returns (r: Result<User>)
      ensures r.Success? <==> id in service.repository.users && service.repository.users[id].status == Active
      ensures r.Success? ==> r.value == service.repository.users[id]
      ensures r.Failure? ==> r.error == ResourceNotFound
    {
      r := service.GetById(id);
    }

    /** The activation link: succeeds exactly when the record exists and the
        code matches, and the stored record is then ACTIVE. */
    method VerifyEmail(id: int, code: string) returns (r: Result<()>)
      requires Valid()
      modifies service.repository
      ensures Valid()
      ensures r.Success? <==> id in old(service.repository.users)
                              && code == old(service.repository.users)[id].certificationCode
      ensures r.Success? ==> service.repository.users
                             == old(service.repository.users)[id := old(service.repository.users)[id].(status := Active)]
      ensures id !in old(service.repository.users) ==> r == Failure(ResourceNotFound)
      ensures id in old(service.repository.users) && r.Failure? ==> r.error == CertificationCodeNotMatched
      ensures r.Failure? ==> service.repository.users == old(service.repository.users)
    {
      var verified := service.VerifyEmail(id, code);
      if verified.Failure? {
        return Failure(verified.error);
      }
      r := Success(());
    }

    /** The caller's own profile, looked up by email among ACTIVE records;
        reading it records a login, and the returned record shows it. */
    method GetMyInfo(email: string) returns (r: Result<User>)
      requires Valid()
      modifies service.repository
      ensures Valid()
      ensures r.Success? <==> HasMatch(old(service.repository.users), email, Active)
      ensures r.Success? ==>
        && r.value.id.Some?
        && var k := r.value.id.value;
        && k in old(service.repository.users)
        && old(service.repository.users)[k].email == email
        && old(service.repository.users)[k].status == Active
        && r.value == Login(old(service.repository.users)[k], service.clockMillis)
        && service.repository.users == old(service.repository.users)[k := r.value]
      ensures r.Failure? ==> r.error == ResourceNotFound
      ensures r.Failure? ==> service.repository.users == old(service.repository.users)
    {
      var mine := service.GetByEmail(email);
      if mine.Failure? {
        return mine;
      }
      r := service.Login(mine.value.id.value);
    }

    /** The caller's own profile update, looked up by email among ACTIVE
        records: only nickname and address take the request's values. */
    method UpdateMyInfo(email: string, req: UserUpdateRequest) returns (r: Result<User>)
      requires Valid()
      modifies service.repository
      ensures Valid()
      ensures r.Success? <==> HasMatch(old(service.repository.users), email, Active)
      ensures r.Success? ==>
        && r.value.id.Some?
        && var k := r.value.id.value;
        && k in old(service.repository.users)
        && old(service.repository.users)[k].email == email
        && old(service.repository.users)[k].status == Active
        && r.value == UserDomain.Update(old(service.repository.users)[k], To(req))
        && service.repository.users == old(service.repository.users)[k := r.value]
      ensures r.Failure? ==> r.error == ResourceNotFound
      ensures r.Failure? ==> service.repository.users == old(service.repository.users)
    {
      var mine := service.GetByEmail(email);
      if mine.Failure? {
        return mine;
      }
      r := service.Update(mine.value.id.value, To(req));
    }

    /** Registration: the new record is PENDING, has never logged in and
        keeps the submitted email, nickname and address. */
    method CreateUser(create: UserCreate) returns (r: User)
      requires Valid()
      modifies service, service.repository
      ensures Valid()
      ensures r.id.Some? && r.id.value !in old(service.repository.users)
      ensures r.email == create.email && r.nickname == create.nickname && r.address == create.address
      ensures r.status == Pending && r.lastLoginAt.None? && r.certificationCode == service.uuid
      ensures service.repository.users == old(service.repository.users)[r.id.value := r]
      ensures service.outbox == old(service.outbox) + [Notice(create.email, r.id.value, service.uuid)]
    {
      r := service.Create(create);
    }
  }
}
