/** The user lifecycle service: registration, lookups that hide PENDING
    records, profile update, login and email certification. Update, login
    and certification read, apply a transition and save; registration builds
    the record and saves it; the lookups only read. The clock and the
    certification-code generator are injected constants. */
module Service {
  import opened Common
  import opened UserDomain
  import opened Store

  /** One activation message handed to the mail sender: the address, the
      identifier the link points at and the code it carries. */
  datatype Notice = Notice(email: string, userId: int, certificationCode: string)

  class UserService {
    const repository: UserRepository
    /** What the injected clock holder reports, in milliseconds. */
    const clockMillis: int
    /** What the injected uuid holder generates. */
    const uuid: string
    /** Every activation message sent so far, oldest first. */
    var outbox: seq<Notice>

    ghost predicate Valid()
      reads this, repository
    {
      repository.Valid()
    }

    constructor (repository: UserRepository, clockMillis: int, uuid: string)
      ensures this.repository == repository && this.clockMillis == clockMillis && this.uuid == uuid
      ensures outbox == []
    {
      this.repository := repository;
      this.clockMillis := clockMillis;
      this.uuid := uuid;
      outbox := [];
    }

    /** Registration: a PENDING record carrying the generated code is stored
        under a fresh identifier, and one activation message is sent. */
    method Create(create: UserCreate) returns (r: User)
      requires Valid()
      modifies this, repository
      ensures Valid()
      ensures r == From(create, uuid).(id := Some(old(repository.nextId)))
      ensures r.id.value !in old(repository.users)
      ensures repository.users == old(repository.users)[r.id.value := r]
      ensures repository.nextId == old(repository.nextId) + 1
      ensures outbox == old(outbox) + [Notice(create.email, r.id.value, uuid)]
    {
      var user := From(create, uuid);
      r := repository.Save(user);
      outbox := outbox + [Notice(create.email, r.id.value, r.certificationCode)];
    }

    /** Lookup by identifier, showing ACTIVE records only. */
    method GetById(id: int) returns (r: Result<User>)
      ensures r.Success? <==> id in repository.users && repository.users[id].status == Active
      ensures r.Success? ==> r.value == repository.users[id]
      ensures r.Failure? ==> r.error == ResourceNotFound
    {
      var found := repository.FindById(id);
      if found.Some? && found.value.status == Active {
        r := Success(found.value);
      } else {
        r := Failure(ResourceNotFound);
      }
    }

    /** Lookup by email, showing ACTIVE records only. */
    method GetByEmail(email: string) returns (r: Result<User>)
      requires Valid()
      ensures r.Success? <==> HasMatch(repository.users, email, Active)
      ensures r.Success? ==> r.value.id.Some? && r.value.id.value in repository.users
      ensures r.Success? ==> repository.users[r.value.id.value] == r.value
      ensures r.Success? ==> r.value.email == email && r.value.status == Active
      ensures r.Failure? ==> r.error == ResourceNotFound
    {
      var found := repository.FindByEmailAndStatus(email, Active);
      if found.Some? {
        r := Success(found.value);
      } else {
        r := Failure(ResourceNotFound);
      }
    }

    /** Profile update of the record stored under `id`, whatever its status. */
    method Update(id: int, upd: UserUpdate) returns (r: Result<User>)
      requires Valid()
      modifies repository
      ensures Valid()
      ensures r.Success? <==> id in old(repository.users)
      ensures r.Success? ==> r.value == UserDomain.Update(old(repository.users)[id], upd)
      ensures r.Success? ==> repository.users == old(repository.users)[id := r.value]
      ensures r.Failure? ==> r.error == ResourceNotFound && repository.users == old(repository.users)
    {
      var found := repository.FindById(id);
      if found.None? {
        return Failure(ResourceNotFound);
      }
      var saved := repository.Save(UserDomain.Update(found.value, upd));
      r := Success(saved);
    }

    /** Login of the record stored under `id`, whatever its status: its last
        login becomes the clock reading. */
    method Login(id: int) returns (r: Result<User>)
      requires Valid()
      modifies repository
      ensures Valid()
      ensures r.Success? <==> id in old(repository.users)
      ensures r.Success? ==> r.value == UserDomain.Login(old(repository.users)[id], clockMillis)
      ensures r.Success? ==> repository.users == old(repository.users)[id := r.value]
      ensures r.Failure? ==> r.error == ResourceNotFound && repository.users == old(repository.users)
    {
      var found := repository.FindById(id);
      if found.None? {
        return Failure(ResourceNotFound);
      }
      var saved := repository.Save(UserDomain.Login(found.value, clockMillis));
      r := Success(saved);
    }

    /** Certification of the record stored under `id`, PENDING records
        included; a wrong code saves nothing. */
    method VerifyEmail(id: int, code: string) returns (r: Result<User>)
      requires Valid()
      modifies repository
      ensures Valid()
      ensures id !in old(repository.users) ==> r == Failure(ResourceNotFound)
      ensures id in old(repository.users) ==> r == Certificate(old(repository.users)[id], code)
      ensures r.Success? ==> repository.users == old(repository.users)[id := r.value]
      ensures r.Failure? ==> repository.users == old(repository.users)
    {
      var found := repository.FindById(id);
      if found.None? {
        return Failure(ResourceNotFound);
      }
      var certified := Certificate(found.value, code);
      if certified.Failure? {
        return certified;
      }
      var saved := repository.Save(certified.value);
      r := Success(saved);
    }
  }
}
