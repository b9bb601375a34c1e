/**
 * The authentication dependencies (backend/app/core/deps.py): the current
 * user behind a bearer token, and the superuser guard. Decoding the token is
 * outside the model: it arrives as the integer `sub` claim or as the error
 * decoding raised.
 */
module Deps {
  import opened Wrappers
  import opened Http
  import opened Store

  const UserNotFound := "User not found"
  const InactiveUser := "Inactive user"
  const NotEnoughPrivileges := "The user doesn't have enough privileges"

  /** `get_current_user`: the active user the token's subject names, with its id. */
  function CurrentUser(users: map<int, UserRow>, subject: Result<int, HttpError>): (r: Result<(int, UserRow), HttpError>)
    ensures subject.Err? ==> r == Err(subject.error)
    ensures r.Ok? <==> subject.Ok? && subject.value in users && users[subject.value].isActive
    ensures r.Ok? ==> r.value == (subject.value, users[subject.value])
    ensures subject.Ok? && subject.value !in users ==> r == Err(Fail(NotFound, UserNotFound))
    ensures subject.Ok? && subject.value in users && !users[subject.value].isActive ==> r == Err(Fail(BadRequest, InactiveUser))
  {
    if subject.Err? then Err(subject.error)
    else if subject.value !in users then Err(Fail(NotFound, UserNotFound))
    else if !users[subject.value].isActive then Err(Fail(BadRequest, InactiveUser))
    else Ok((subject.value, users[subject.value]))
  }

  /** `get_current_active_superuser`: the same user when a superuser, else 403. */
  function ActiveSuperuser(user: UserRow): (r: Result<UserRow, HttpError>)
    ensures r.Ok? <==> user.isSuperuser
    ensures r.Ok? ==> r.value == user
    ensures r.Err? ==> r.error == Fail(Forbidden, NotEnoughPrivileges)
  {
    if !user.isSuperuser then Err(Fail(Forbidden, NotEnoughPrivileges)) else Ok(user)
  }
}
