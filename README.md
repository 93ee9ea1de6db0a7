# User account lifecycle: a Dafny model

This project models the user core of a small Spring backend. A user registers. The record is then stored as PENDING, with a certification code from the injected uuid holder, and an activation message goes out. Presenting that exact code turns the record ACTIVE. Plain lookups by id or by email show ACTIVE records only. Profile updates change the nickname and the address and nothing else. A login stamps the record with the injected clock's reading. The behaviour of `User`, `UserServiceImpl` and the in-memory `FakeUserRepository` is taken from what the tests pin down. Where they are silent, the model takes the permissive reading: there is no status filter on update, login or verification. The model also covers `UserUpdateRequest`.

Layout, one module per layer:

- `common.dfy` (`Common`): `Option`, `Result` and the two signalled errors, `ResourceNotFound` and `CertificationCodeNotMatched`.
- `user_domain.dfy` (`UserDomain`): the `User` record and its pure transitions `From`, `Update`, `Login` and `Certificate`. It also has lemmas about single transitions and about any history of them (`Replay`).
- `user_update_request.dfy` (`UserRequest`): the immutable request and its mapping `To` into a `UserUpdate`. The datatype constructor stores both fields unchanged.
- `store.dfy` (`Store`): class `UserRepository`, a `map<int, User>` plus the next identifier to hand out. It has an upsert `Save` and lookups that return absence as a value.
- `service.dfy` (`Service`): class `UserService`. It holds the store, the clock reading, the generated code and an outbox of activation notices. `Update`, `Login` and `VerifyEmail` read, apply a transition and save. `Create` builds the record with `From` and saves it. `GetById` and `GetByEmail` only read.
- `controller.dfy` (`Controller`): class `UserController`, the endpoints as calls into the service.
- `scenarios.dfy` (`Scenarios`): client methods that replay the test cases. Each assertion there follows from the contracts alone.

## Model

| member | source | states |
|---|---|---|
| `UserDomain.From` | src/test/java/com/example/demo/user/domain/UserTest.java:17-36 | registration gives no id and no login time; email, nickname and address come from the input; the status is PENDING; the code is exactly the uuid holder's value |
| `UserDomain.Update` | src/test/java/com/example/demo/user/domain/UserTest.java:39-68 | nickname and address take the update's values; id, email, code, status and last login are unchanged |
| `UserDomain.Login` | src/test/java/com/example/demo/user/domain/UserTest.java:70-87 | last login becomes the clock's millis, replacing the earlier value; every other field is unchanged |
| `UserDomain.Certificate` | src/test/java/com/example/demo/user/domain/UserTest.java:88-126 | succeeds if and only if the code equals the stored code exactly; success gives an ACTIVE record with all other fields kept; a mismatch is `CertificationCodeNotMatched` |
| `UserDomain.RegistrationCodeActivates` | src/test/java/com/example/demo/user/domain/UserTest.java:27-35 | a freshly registered record is activated by the generated code and by no other code |
| `UserDomain.CertificateIdempotent` | src/test/java/com/example/demo/user/service/UserServiceTest.java:152-162 | certifying an already ACTIVE record with its own code succeeds and changes nothing (there is no status guard) |
| `UserDomain.LastUpdateWins` | src/test/java/com/example/demo/user/domain/UserTest.java:58-64 | updates always overwrite: two updates in a row equal the second one alone |
| `UserDomain.LoginCommutesWithUpdate` | src/test/java/com/example/demo/user/domain/UserTest.java:58-86 | login and profile update touch disjoint fields, so either order gives the same record |
| `UserDomain.ReplayLifecycle` | src/test/java/com/example/demo/user/domain/UserTest.java:40-126 | over any history of updates, logins and certification attempts, id, email and code never change; the record is ACTIVE exactly when it started ACTIVE or its own code was presented, so ACTIVE never reverts |
| `UserRequest.To` | src/main/java/com/example/demo/user/controller/request/UserUpdateRequest.java:22-27 | the produced update carries the request's nickname and address |
| `UserRequest.ToIsBijective` | src/main/java/com/example/demo/user/controller/request/UserUpdateRequest.java:11-27 | the mapping is one-to-one and onto: distinct requests give distinct updates, and every update comes from the request with its two fields |
| `UserRequest.RequestUpdatesProfileOnly` | src/test/java/com/example/demo/user/controller/UserControllerTest.java:154-166 | applying a request changes exactly the nickname and the address, to the request's values |
| `Store.UserRepository.constructor` | src/test/java/com/example/demo/user/service/UserServiceTest.java:27 | a new store is empty and valid |
| `Store.UserRepository.Save` | src/test/java/com/example/demo/user/service/UserServiceTest.java:36-53 | upsert: a record without an id is stored under a fresh id not used before; a record with an id replaces what was stored under it; the counter moves past every id stored; the store invariant (each record under its own id) is kept |
| `Store.UserRepository.FindById` | src/test/java/com/example/demo/user/service/UserServiceTest.java:165-174 | finds the record stored under the id, whatever its status, and reports absence otherwise |
| `Store.UserRepository.GetById` | src/test/java/com/example/demo/user/controller/UserControllerTest.java:82 | returns the stored record, or `ResourceNotFound` exactly when nothing is stored under the id |
| `Store.UserRepository.FindByEmailAndStatus` | src/test/java/com/example/demo/user/service/UserServiceTest.java:56-79 | finds a record if and only if some stored record has that email and status; the record found has them and is stored under its own id |
| `Service.UserService.constructor` | src/test/java/com/example/demo/user/service/UserServiceTest.java:29-34 | the service is wired to the given store, clock reading and uuid value, and no message has been sent yet |
| `Service.UserService.Create` | src/test/java/com/example/demo/user/service/UserServiceTest.java:103-118 | the result is the registration record under a fresh id; it is stored, nothing else changes, and exactly one notice with the email, id and code is sent; no email-uniqueness check |
| `Service.UserService.GetById` | src/test/java/com/example/demo/user/service/UserServiceTest.java:81-101 | succeeds if and only if a record is stored under the id and it is ACTIVE, and then returns that record; otherwise `ResourceNotFound` |
| `Service.UserService.GetByEmail` | src/test/java/com/example/demo/user/service/UserServiceTest.java:56-79 | succeeds if and only if some stored ACTIVE record has the email; the record returned is stored, ACTIVE and has that email; otherwise `ResourceNotFound` |
| `Service.UserService.Update` | src/test/java/com/example/demo/user/service/UserServiceTest.java:120-137 | for a stored id, of any status, the updated record is returned and persisted, and no other record changes; an absent id is `ResourceNotFound` with the store unchanged |
| `Service.UserService.Login` | src/test/java/com/example/demo/user/service/UserServiceTest.java:139-149 | for a stored id, the record with last login equal to the clock reading is returned and persisted; an absent id is `ResourceNotFound` with the store unchanged |
| `Service.UserService.VerifyEmail` | src/test/java/com/example/demo/user/service/UserServiceTest.java:151-174 | loads PENDING records too and answers `Certificate` on the stored record; a success is persisted; any failure (absent id or wrong code) leaves the store unchanged |
| `Controller.UserController.constructor` | src/test/java/com/example/demo/user/controller/UserControllerTest.java:24 | the controller is wired to the given service |
| `Controller.UserController.GetUserById` | src/test/java/com/example/demo/user/controller/UserControllerTest.java:21-59 | returns the stored ACTIVE record unchanged (email, nickname, last login, status); `ResourceNotFound` on an absent or PENDING id, including an empty store |
| `Controller.UserController.VerifyEmail` | src/test/java/com/example/demo/user/controller/UserControllerTest.java:61-105 | succeeds if and only if the id is stored and the code matches, and then the stored record is ACTIVE with nothing else changed; a wrong code is `CertificationCodeNotMatched` and changes nothing |
| `Controller.UserController.GetMyInfo` | src/test/java/com/example/demo/user/controller/UserControllerTest.java:107-136 | succeeds if and only if an ACTIVE record has the email; it returns and persists that record with last login set to the clock reading, so the caller sees its own address, nickname, email and status |
| `Controller.UserController.UpdateMyInfo` | src/test/java/com/example/demo/user/controller/UserControllerTest.java:138-167 | succeeds if and only if an ACTIVE record has the email; only that record's nickname and address change, to the request's values, and the result is persisted |
| `Controller.UserController.CreateUser` | src/test/java/com/example/demo/user/controller/UserCreateControllerTest.java:18-42 | the new record keeps the input email, nickname and address, is PENDING, has no last login, and is stored under a fresh id |
| `Scenarios.SeededService` | src/test/java/com/example/demo/user/service/UserServiceTest.java:24-54 | the service test fixture: ACTIVE user 1 and PENDING user 2, a fixed clock and a fixed code |
| `Scenarios.SeededController` | src/test/java/com/example/demo/user/controller/UserControllerTest.java:24-34 | the controller test fixture: ACTIVE user 1 with last login 100 |

## Left out

- Mail delivery: the certification service and the mail sender are reduced to the `outbox` sequence of `Notice` values. The message text and the link format are not modelled, and neither are delivery failures, which the service would not catch.
- Response shaping: the controller returns the domain record, not the public or self-profile view. The public view hides the address, but that field filtering is not modelled. HTTP status codes (200, 201, 302, 403, 404) and error message text are not modelled either.
- Real time and randomness: the clock reading and the generated code are constants injected at construction, as the test holders supply them.
- Integer width: identifiers and timestamps are Java `long` values in the source. They are unbounded integers here, so overflow of the id counter is not modelled.
- Store.UserRepository.Save: the model hands out a fresh identifier. An explicit id at or above the counter moves the counter past it, so an automatically assigned id never clashes with a seeded one. The in-memory fake's own id counter is not reproduced.
- Service.UserService.Update: no ACTIVE filter is applied before updating. The model allows updating a PENDING record whose id the caller has. No test exercises that case.
- Store.UserRepository.FindByEmailAndStatus: email lookup filters on status while scanning. A PENDING record that shares an email with an ACTIVE one therefore never hides it. When several records match, which one is returned is left open.
- Concurrency and transactions: operations run one at a time, and the lost-update race between concurrent read-modify-write calls is not modelled.
- The post feature, the ORM entities, the Spring MockMvc integration tests with their SQL fixtures, and the response DTO tests are not part of this model.
