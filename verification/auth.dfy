/**
 * The session context: the logged-in user held in memory by `AuthProvider`,
 * and its copy under the `userInfo` key of the browser's local storage.
 */
module Auth {
  import opened Api

  /** The fields of the server's user object that the client reads. */
  datatype UserInfo = UserInfo(name: Option<string>, isAdmin: bool, points: int, token: string)

  /**
   * The `userInfo` entry of `localStorage`. The JSON text written there is
   * treated as an exact copy of the user it was made from.
   */
  class LocalStorage {
    var entry: Option<UserInfo>

    constructor (initial: Option<UserInfo>)
      ensures entry == initial
    {
      entry := initial;
    }
  }

  class AuthProvider {
    var userInfo: Option<UserInfo>
    const storage: LocalStorage

    /** The in-memory user and the stored copy agree. */
    predicate InSync()
      reads this, storage
    {
      userInfo == storage.entry
    }

    /** First render: no user yet, whatever storage holds. */
    constructor (storage: LocalStorage)
      ensures this.storage == storage && userInfo == None
      ensures unchanged(storage)
    {
      this.storage := storage;
      userInfo := None;
    }

    /** The mount effect: a stored user, if any, becomes the current user. */
    method Restore()
      modifies this
      ensures storage.entry.Some? ==> userInfo == storage.entry && InSync()
      ensures storage.entry.None? ==> userInfo == old(userInfo)
    {
      if storage.entry.Some? {
        userInfo := storage.entry;
      }
    }

    method Login(userData: UserInfo)
      modifies this, storage
      ensures userInfo == Some(userData) && storage.entry == Some(userData)
      ensures InSync()
    {
      userInfo := Some(userData);
      storage.entry := Some(userData);
    }

    /**
     * Clears both copies. The final state does not depend on the state before,
     * so logging out twice is the same as logging out once.
     */
    method Logout()
      modifies this, storage
      ensures userInfo == None && storage.entry == None
      ensures InSync()
    {
      userInfo := None;
      storage.entry := None;
    }

    /** Same effect as `Login`: used after the server returns an updated user (new points). */
    method UpdateUser(newUserData: UserInfo)
      modifies this, storage
      ensures userInfo == Some(newUserData) && storage.entry == Some(newUserData)
      ensures InSync()
    {
      userInfo := Some(newUserData);
      storage.entry := Some(newUserData);
    }
  }
}
