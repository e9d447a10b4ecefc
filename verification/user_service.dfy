/**
  UserServiceImpl over an in-memory Users table. Reads and profile edits
  see only enabled users; enable/disable see only non-admin users, so an
  admin can never be switched off (or on) through them. Password hashing
  is an opaque function supplied by the caller.
 */
module UserService {
  import opened Wrappers
  import opened Tables
  import opened Schema

  /** The WHERE clause `id eq id and enabled eq true`. */
  predicate Visible(t: UserTable, id: Uuid) {
    id in t && t[id].enabled
  }

  /** `user(id)`: the enabled user with that id. */
  function Get(t: UserTable, id: Uuid): (r: Option<User>)
    ensures r.Some? <==> Visible(t, id)
    ensures r.Some? ==> r.value.id == id && r.value.isAdmin == t[id].isAdmin
    ensures r.Some? ==> r.value.name == t[id].name && r.value.mail == t[id].mail
    ensures r.Some? ==> r.value.passwordHash == t[id].passwordHash
  {
    if Visible(t, id) then
      var row := t[id];
      Some(User(id, row.name, row.mail, row.passwordHash, row.isAdmin))
    else None
  }

  /** `userDTO(id)`: the (id, name, mail) projection of `user(id)`, null exactly when it is. */
  function Dto(t: UserTable, id: Uuid): (r: Option<UserDto>)
    ensures r.Some? <==> Get(t, id).Some?
    ensures r.Some? ==> r.value == UserDto(id, Get(t, id).value.name, Get(t, id).value.mail)
  {
    if Visible(t, id) then Some(UserDto(id, t[id].name, t[id].mail)) else None
  }

  /** `editMail(id, mail)`: sets only the mail of an enabled user. */
  function EditMail(t: UserTable, id: Uuid, mail: string): (r: Written<UserTable>)
    ensures r.matched <==> Visible(t, id)
    ensures !r.matched ==> r.rows == t
    ensures SameElsewhere(t, r.rows, id)
    ensures r.matched ==> r.rows[id] == t[id].(mail := mail)
  {
    if Visible(t, id) then Written(true, t[id := t[id].(mail := mail)]) else Written(false, t)
  }

  /** `editPassword(id, password)`: sets only the hash of an enabled user, to `hash(password)`. */
  function EditPassword(t: UserTable, id: Uuid, password: string, hash: string -> string): (r: Written<UserTable>)
    ensures r.matched <==> Visible(t, id)
    ensures !r.matched ==> r.rows == t
    ensures SameElsewhere(t, r.rows, id)
    ensures r.matched ==> r.rows[id] == t[id].(passwordHash := hash(password))
  {
    if Visible(t, id) then Written(true, t[id := t[id].(passwordHash := hash(password))])
    else Written(false, t)
  }

  /** The WHERE clause `id eq id and isAdmin eq false` of enable/disable. */
  predicate Switchable(t: UserTable, id: Uuid) {
    id in t && !t[id].isAdmin
  }

  /** `enable(id)`: sets the flag of a non-admin user, whatever it was; an admin target matches nothing. */
  function Enable(t: UserTable, id: Uuid): (r: Written<UserTable>)
    ensures r.matched <==> id in t && !t[id].isAdmin
    ensures !r.matched ==> r.rows == t
    ensures SameElsewhere(t, r.rows, id)
    ensures r.matched ==> r.rows[id] == t[id].(enabled := true)
  {
    if Switchable(t, id) then Written(true, t[id := t[id].(enabled := true)]) else Written(false, t)
  }

  /** `disable(id)`: clears the flag of a non-admin user, whatever it was; an admin target matches nothing. */
  function Disable(t: UserTable, id: Uuid): (r: Written<UserTable>)
    ensures r.matched <==> id in t && !t[id].isAdmin
    ensures !r.matched ==> r.rows == t
    ensures SameElsewhere(t, r.rows, id)
    ensures r.matched ==> r.rows[id] == t[id].(enabled := false)
  {
    if Switchable(t, id) then Written(true, t[id := t[id].(enabled := false)]) else Written(false, t)
  }

  /** Disabling an enabled non-admin user and enabling it again restores the table. */
  lemma DisableEnableRoundTrip(t: UserTable, id: Uuid)
    requires Visible(t, id) && !t[id].isAdmin
    ensures Enable(Disable(t, id).rows, id) == Written(true, t)
  {
    assert Enable(Disable(t, id).rows, id).rows == t;
  }

  /** No sequence of enable/disable calls changes whether an admin is enabled. */
  lemma {:induction false} AdminsStayPut(t: UserTable, id: Uuid, ops: seq<(bool, Uuid)>)
    requires id in t && t[id].isAdmin
    ensures id in Toggle(t, ops) && Toggle(t, ops)[id] == t[id]
    decreases |ops|
  {
    if ops != [] {
      var t' := if ops[0].0 then Enable(t, ops[0].1).rows else Disable(t, ops[0].1).rows;
      AdminsStayPut(t', id, ops[1..]);
    }
  }

  /** Applies enable (`true`) and disable (`false`) calls in order. */
  function Toggle(t: UserTable, ops: seq<(bool, Uuid)>): (r: UserTable)
    ensures r.Keys == t.Keys
    decreases |ops|
  {
    if ops == [] then t
    else
      var t' := if ops[0].0 then Enable(t, ops[0].1).rows else Disable(t, ops[0].1).rows;
      Toggle(t', ops[1..])
  }

  /** Reading an enabled user back after editMail gives the same user with the new mail. */
  lemma EditMailThenGet(t: UserTable, id: Uuid, mail: string)
    requires Visible(t, id)
    ensures Get(EditMail(t, id, mail).rows, id) == Some(Get(t, id).value.(mail := mail))
  {
  }

  /** Reading an enabled user back after editPassword gives the same user with the hash of the new password. */
  lemma EditPasswordThenGet(t: UserTable, id: Uuid, password: string, hash: string -> string)
    requires Visible(t, id)
    ensures Get(EditPassword(t, id, password, hash).rows, id) == Some(Get(t, id).value.(passwordHash := hash(password)))
  {
  }

  /** The edits of a disabled or missing user are not visible to any read: the user stays unreadable. */
  lemma EditsOfInvisibleUserStayInvisible(t: UserTable, id: Uuid, mail: string, password: string, hash: string -> string)
    requires !Visible(t, id)
    ensures Get(EditMail(t, id, mail).rows, id).None?
    ensures Get(EditPassword(t, id, password, hash).rows, id).None?
  {
  }
}
