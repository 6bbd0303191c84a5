/**
 The four user handlers. Each acknowledges its operation with a fixed body and
 the default status, never fails, and reads neither the request nor the state.
 */
module Handlers {
  import opened Http

  function CreateUser(req: Request, db: Db): (r: Result<Response>)
    ensures r.Ok? && r.value.status == OK
    ensures r.value.body == "user created!"
  {
    Ok(NewResponse("user created!"))
  }

  function GetUser(req: Request): (r: Result<Response>)
    ensures r.Ok? && r.value.status == OK
    ensures r.value.body == "get user!"
  {
    Ok(NewResponse("get user!"))
  }

  function DeleteUser(req: Request): (r: Result<Response>)
    ensures r.Ok? && r.value.status == OK
    ensures r.value.body == "delete user!"
  {
    Ok(NewResponse("delete user!"))
  }

  /** The acknowledgement really has two spaces between "modify" and "user". */
  function ModifyUser(req: Request): (r: Result<Response>)
    ensures r.Ok? && r.value.status == OK
    ensures r.value.body == "modify" + "  " + "user!"
  {
    Ok(NewResponse("modify  user!"))
  }

  /** No handler's result depends on the request it is given, nor on the state. */
  lemma HandlersIgnoreInputs(req1: Request, req2: Request, db1: Db, db2: Db)
    ensures CreateUser(req1, db1) == CreateUser(req2, db2)
    ensures GetUser(req1) == GetUser(req2)
    ensures DeleteUser(req1) == DeleteUser(req2)
    ensures ModifyUser(req1) == ModifyUser(req2)
  {}
}
