/** The per-user JSON store of storage.py: `user_data.json` maps
    `str(user_id)` to that user's dict. The file is missing, unparseable
    (`Garbled`) or a parsed map; `T` is the user's dict, which the store
    never looks into. Where the source returns `{}` for an unknown user the
    model returns `None`. */
module Users {
  import opened Wrappers
  import opened Text

  datatype UserFile<T> = Missing | Garbled | Stored(users: map<string, T>)

  /** `str(user_id)`, the key of a user in the file. */
  function UserKey(id: int): string { IntToString(id) }

  /** `load_all_users()`: the parsed map, or `{}` when the file is missing
      or unparseable. */
  function AllUsers<T>(file: UserFile<T>): map<string, T> {
    match file
    case Stored(users) => users
    case _ => map[]
  }

  /** `load_user(user_id)`. */
  function UserOf<T>(file: UserFile<T>, id: int): Option<T> {
    var all := AllUsers(file);
    if UserKey(id) in all then Some(all[UserKey(id)]) else None
  }

  /** The file after `save_user(user_id, data)`: read (or start from `{}`),
      set one key, write back. */
  function SavedUser<T>(file: UserFile<T>, id: int, data: T): UserFile<T> {
    Stored(AllUsers(file)[UserKey(id) := data])
  }

  class UserFileStore<T> {
    var file: UserFile<T>

    constructor (initial: UserFile<T>)
      ensures file == initial
    {
      file := initial;
    }

    method LoadUser(id: int) returns (r: Option<T>)
      ensures r == UserOf(file, id)
    {
      match file
      case Stored(users) =>
        var key := IntToString(id);
        r := if key in users then Some(users[key]) else None;
      case Missing =>
        r := None;
      case Garbled =>
        r := None;
    }

    method SaveUser(id: int, data: T)
      modifies this
      ensures file == SavedUser(old(file), id, data)
    {
      var all: map<string, T>;
      match file {
        case Stored(users) =>
          all := users;
        case Missing =>
          all := map[];
        case Garbled =>
          all := map[];
      }
      all := all[IntToString(id) := data];
      file := Stored(all);
    }

    method LoadAllUsers() returns (all: map<string, T>)
      ensures all == AllUsers(file)
    {
      all := if file.Stored? then file.users else map[];
    }
  }

  /** `save_user` then `load_user` gives the saved dict back, and every
      other user reads as before. */
  lemma SaveThenLoad<T>(file: UserFile<T>, id: int, data: T, other: int)
    requires other != id
    ensures UserOf(SavedUser(file, id, data), id) == Some(data)
    ensures UserOf(SavedUser(file, id, data), other) == UserOf(file, other)
  {
    if UserKey(other) == UserKey(id) {
      IntToStringInjective(other, id);
    }
  }

  /** A missing or unparseable file reads as `{}` for everybody, and saving
      into it keeps only the user just saved. */
  lemma UnreadableFile<T>(file: UserFile<T>, id: int, data: T, other: int)
    requires !file.Stored?
    ensures UserOf(file, other) == None
    ensures AllUsers(SavedUser(file, id, data)) == map[UserKey(id) := data]
  {
  }
}
