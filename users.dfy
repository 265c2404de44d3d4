/** Application users and their roles, kept in a list with unique usernames
    and saved to a users file after every change. */
module Users {
  import opened Wrappers

  /** A user; only the role is ever reassigned. */
  class User {
    const username: string
    const name: string
    var roleId: string

    constructor (username: string, name: string, roleId: string)
      ensures this.username == username && this.name == name && this.roleId == roleId
    {
      this.username, this.name, this.roleId := username, name, roleId;
    }
  }

  /** The stored form of a user: exactly the keys username, nombre and rol_id. */
  datatype UserRecord = UserRecord(username: string, name: string, roleId: string)

  /** `to_dict()`. */
  function ToRecord(u: User): (r: UserRecord)
    reads u
    ensures r.username == u.username && r.name == u.name && r.roleId == u.roleId
  {
    UserRecord(u.username, u.name, u.roleId)
  }

  /** The stored form of a list of users, in order. */
  function Records(users: seq<User>): (r: seq<UserRecord>)
    reads set u | u in users
    ensures |r| == |users|
    ensures forall i :: 0 <= i < |users| ==> r[i] == ToRecord(users[i])
  {
    if users == [] then []
    else Records(users[..|users| - 1]) + [ToRecord(users[|users| - 1])]
  }

  /** The users file: absent, present but not readable as a list of users, or parsed. */
  datatype UsersFile = Missing | Unreadable | Parsed(records: seq<UserRecord>)

  /** The first user with that username. */
  function FindUser(users: seq<User>, username: string): Option<User> {
    First(users, (u: User) => u.username == username)
  }

  /** No two users share a username. */
  predicate DistinctUsernames(users: seq<User>) {
    forall i, j :: 0 <= i < j < |users| ==> users[i].username != users[j].username
  }

  /** Appending a user whose username is new keeps usernames distinct. */
  lemma DistinctSnoc(users: seq<User>, u: User)
    requires forall v :: v in users ==> v.username != u.username
    ensures DistinctUsernames(users) ==> DistinctUsernames(users + [u])
  {
    var all := users + [u];
    if DistinctUsernames(users) {
      forall i, j | 0 <= i < j < |all| ensures all[i].username != all[j].username {
        if j == |users| {
          assert all[i] in users;
        }
      }
    }
  }

  class UserStore {
    var users: seq<User>
    /** The users file. */
    ghost var file: UsersFile

    /** Loads the users file: a missing file gives no users, an unreadable one
        gives no users either, and a parsed one gives one user per record. */
    constructor (stored: UsersFile)
      ensures stored.Parsed? ==> Records(users) == stored.records
      ensures !stored.Parsed? ==> users == []
      ensures forall u :: u in users ==> fresh(u)
      ensures file == stored
    {
      users := [];
      file := stored;
      new;
      if stored.Parsed? {
        var records := stored.records;
        var i := 0;
        while i < |records|
          invariant 0 <= i <= |records|
          invariant |users| == i
          invariant forall k :: 0 <= k < i ==> ToRecord(users[k]) == records[k]
          invariant forall u :: u in users ==> fresh(u)
          invariant file == stored
        {
          var u := new User(records[i].username, records[i].name, records[i].roleId);
          users := users + [u];
          i := i + 1;
        }
      }
    }

    /** `_guardar_usuarios`: the file holds the stored form of every user, in order. */
    method Save()
      modifies this`file
      ensures file == Parsed(Records(users))
    {
      file := Parsed(Records(users));
    }

    /** `agregar_usuario`: an existing username is rejected and nothing
        changes; otherwise one new user is appended, returned and saved. */
    method AddUser(username: string, name: string, roleId: string) returns (r: Result<User>)
      modifies this
      ensures (exists u :: u in old(users) && u.username == username) <==> r.Err?
      ensures r.Err? ==> r.message == "El usuario ya existe"
      ensures r.Err? ==> users == old(users) && file == old(file)
      ensures r.Ok? ==> fresh(r.value) && users == old(users) + [r.value]
      ensures r.Ok? ==> r.value.username == username && r.value.name == name && r.value.roleId == roleId
      ensures r.Ok? ==> file == Parsed(Records(users))
      ensures DistinctUsernames(old(users)) ==> DistinctUsernames(users)
    {
      if exists u :: u in users && u.username == username {
        return Err("El usuario ya existe");
      }
      var u := new User(username, name, roleId);
      DistinctSnoc(users, u);
      users := users + [u];
      Save();
      return Ok(u);
    }

    /** `actualizar_rol`: an unknown username is rejected and nothing changes;
        otherwise the first user with that name gets the new role, the list
        is saved, and no other user changes. */
    method UpdateRole(username: string, newRoleId: string) returns (r: Result<User>)
      modifies this`file, users
      ensures FindUser(users, username).None? <==> r.Err?
      ensures r.Err? ==> r.message == "Usuario no encontrado" && file == old(file)
      ensures r.Err? ==> forall u :: u in users ==> u.roleId == old(u.roleId)
      ensures r.Ok? ==> r == Ok(FindUser(users, username).value) && r.value.roleId == newRoleId
      ensures r.Ok? ==> forall u :: u in users && u != r.value ==> u.roleId == old(u.roleId)
      ensures r.Ok? ==> file == Parsed(Records(users))
    {
      var found := FindUser(users, username);
      if found.None? {
        return Err("Usuario no encontrado");
      }
      var u := found.value;
      u.roleId := newRoleId;
      Save();
      return Ok(u);
    }

    /** `listar_usuarios`. */
    method ListUsers() returns (r: seq<User>)
      ensures r == users
    {
      return users;
    }
  }
}
