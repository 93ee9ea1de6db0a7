/** The profile-update request the controller receives: two immutable fields
    and a mapping into the domain's update value. */
module UserRequest {
  import opened UserDomain

  /** Built once from the request body; never mutated afterwards. */
  datatype UserUpdateRequest = UserUpdateRequest(nickname: string, address: string)

  /** The domain update this request stands for. */
  function To(req: UserUpdateRequest): (upd: UserUpdate)
    ensures upd.nickname == req.nickname && upd.address == req.address
  {
    UserUpdate(req.nickname, req.address)
  }

  /** The mapping loses nothing: distinct requests give distinct updates,
      and every update is reached by the request carrying its two fields. */
  lemma ToIsBijective(a: UserUpdateRequest, b: UserUpdateRequest, upd: UserUpdate)
    ensures To(a) == To(b) ==> a == b
    ensures To(UserUpdateRequest(upd.nickname, upd.address)) == upd
  {
  }

  /** Applying a request changes exactly the nickname and address, to the
      request's values. */
  lemma RequestUpdatesProfileOnly(u: User, req: UserUpdateRequest)
    ensures Update(u, To(req)) == u.(nickname := req.nickname, address := req.address)
  {
  }
}
