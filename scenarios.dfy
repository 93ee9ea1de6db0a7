/** Client code that replays the repository's test cases against the
    contracts alone: each assertion below follows from the specifications
    of the store, the service and the controller, not from their bodies. */
module Scenarios {
  import opened Common
  import opened UserDomain
  import opened UserRequest
  import opened Store
  import opened Service
  import opened Controller

  const CodeA := "aaaaaaaa-aaaa-aaaa-aaaa-aaaaaaaaaaaa"
  const CodeB := "aaaaaaaa-aaaa-aaaa-aaaa-aaaaaaaaaaab"
  const ActiveUser := User(Some(1), "kok202@naver.com", "kok202", "Seoul", CodeA, Active, Some(0))
  const PendingUser := User(Some(2), "kok303@naver.com", "kok303", "Seoul", CodeB, Pending, Some(0))

  /** The service fixture: an ACTIVE user 1 and a PENDING user 2, a fixed
      clock and a fixed code generator. */
  method SeededService() returns (service: UserService)
    ensures fresh(service) && fresh(service.repository) && service.Valid()
    ensures service.clockMillis == 1678530673958 && service.uuid == CodeA
    ensures service.repository.users == map[1 := ActiveUser, 2 := PendingUser]
    ensures service.repository.nextId == 3
  {
    var repository := new UserRepository();
    service := new UserService(repository, 1678530673958, CodeA);
    var _ := repository.Save(ActiveUser);
    var _ := repository.Save(PendingUser);
  }

  method ServiceLookups() {
    var service := SeededService();
    var byEmail := service.GetByEmail("kok202@naver.com");
    assert service.repository.users[1].email == "kok202@naver.com";
    assert byEmail.Success? && byEmail.value.nickname == "kok202";

    var unknown := service.GetByEmail("kok203@naver.com");
    assert "kok203@naver.com"[5] != "kok202@naver.com"[5];
    assert "kok203@naver.com"[3] != "kok303@naver.com"[3];
    assert unknown == Failure(ResourceNotFound);

    var byId := service.GetById(1);
    assert byId.Success? && byId.value.nickname == "kok202";
    var pending := service.GetById(2);
    assert pending == Failure(ResourceNotFound);
  }

  method ServiceCreate() {
    var service := SeededService();
    var created := service.Create(UserCreate("kok202@naver.com", "nick", "seoul2"));
    assert created.id.Some? && created.status == Pending && created.certificationCode == CodeA;
    // no uniqueness check on the email: both records are stored
    assert created.id == Some(3) && service.repository.users[1] == ActiveUser;
  }

  method ServiceUpdateAndLogin() {
    var service := SeededService();
    var _ := service.Update(1, UserUpdate("change", "change"));
    var after := service.GetById(1);
    assert after.Success? && after.value.id.Some?;
    assert after.value.address == "change" && after.value.nickname == "change";

    var _ := service.Login(1);
    var logged := service.GetById(1);
    assert logged.Success? && logged.value.lastLoginAt == Some(1678530673958);
  }

  method ServiceVerifyEmail() {
    var service := SeededService();
    var ok := service.VerifyEmail(1, CodeA);
    var after := service.GetById(1);
    assert after.Success? && after.value.status == Active;

    var wrong := service.VerifyEmail(2, "aaaaaaaa");
    assert wrong == Failure(CertificationCodeNotMatched);
  }

  /** The controller fixture: user 1 ACTIVE with last login 100. */
  method SeededController(clockMillis: int) returns (controller: UserController)
    ensures fresh(controller) && fresh(controller.service) && fresh(controller.service.repository)
    ensures controller.Valid() && controller.service.clockMillis == clockMillis
    ensures controller.service.repository.users == map[1 := ActiveUser.(lastLoginAt := Some(100))]
  {
    var repository := new UserRepository();
    var service := new UserService(repository, clockMillis, CodeA);
    controller := new UserController(service);
    var _ := repository.Save(ActiveUser.(lastLoginAt := Some(100)));
  }

  method ControllerLookups() {
    var controller := SeededController(0);
    var r := controller.GetUserById(1);
    assert r.Success? && r.value.email == "kok202@naver.com" && r.value.nickname == "kok202";
    assert r.value.lastLoginAt == Some(100) && r.value.status == Active;

    var repository := new UserRepository();
    var service := new UserService(repository, 0, CodeA);
    var empty := new UserController(service);
    var missing := empty.GetUserById(1);
    assert missing == Failure(ResourceNotFound);
  }

  method ControllerVerifyEmail() {
    var controller := SeededController(0);
    var ok := controller.VerifyEmail(1, CodeA);
    var stored := controller.service.repository.GetById(1);
    assert stored.Success? && stored.value.status == Active;

    var other := SeededController(0);
    var wrong := other.VerifyEmail(1, CodeB);
    assert CodeA[35] != CodeB[35];
    assert wrong == Failure(CertificationCodeNotMatched);
  }

  method ControllerMyInfo() {
    var controller := SeededController(1679530673958);
    var me := controller.GetMyInfo("kok202@naver.com");
    assert controller.service.repository.users[1].email == "kok202@naver.com";
    assert me.Success?;
    assert me.value.address == "Seoul" && me.value.nickname == "kok202" && me.value.status == Active;
    assert me.value.lastLoginAt == Some(1679530673958);

    var other := SeededController(0);
    var updated := other.UpdateMyInfo("kok202@naver.com", UserUpdateRequest("nick", "add"));
    assert updated.Success?;
    assert updated.value.email == "kok202@naver.com" && updated.value.nickname == "nick";
    assert updated.value.address == "add" && updated.value.lastLoginAt == Some(100);
    assert updated.value.status == Active;
  }

  method ControllerCreateUser() {
    var repository := new UserRepository();
    var service := new UserService(repository, 0, CodeA);
    var controller := new UserController(service);
    var created := controller.CreateUser(UserCreate("kok202@naver.com", "nick", "add"));
    assert created.email == "kok202@naver.com" && created.nickname == "nick";
    assert created.lastLoginAt.None? && created.status == Pending;
  }

  /** Registration followed by activation: the PENDING record is invisible to
      lookups until its code is presented, a wrong code leaves it so, and the
      right one makes it visible by email. */
  method RegisterThenActivate() {
    var repository := new UserRepository();
    var service := new UserService(repository, 0, "T1");
    var created := service.Create(UserCreate("a@x.com", "nick", "Seoul"));
    var id := created.id.value;
    var hidden := service.GetById(id);
    assert hidden == Failure(ResourceNotFound);

    var wrong := service.VerifyEmail(id, "WRONG");
    assert wrong == Failure(CertificationCodeNotMatched);
    var stillHidden := service.GetById(id);
    assert stillHidden == Failure(ResourceNotFound);

    var ok := service.VerifyEmail(id, "T1");
    assert ok.Success? && service.repository.users[id].status == Active;
    var found := service.GetByEmail("a@x.com");
    assert service.repository.users[id].email == "a@x.com";
    assert found.Success? && found.value.nickname == "nick" && found.value.status == Active;
  }
}
