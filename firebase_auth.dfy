/** The identity provider: user records by uid, each with optional custom claims. */
module FirebaseAuth {
  import opened Wrappers
  import opened Values

  datatype UserRecord = UserRecord(uid: string, email: string, customClaims: Option<Fields>)

  type Users = map<string, UserRecord>

  datatype AuthError = InvalidUid | UserNotFound

  /** auth.GetUser: an empty uid is rejected; an unknown uid is not found. */
  function GetUser(users: Users, uid: string): (r: Result<UserRecord, AuthError>)
    ensures r.Success? <==> uid != "" && uid in users
  {
    if uid == "" then Failure(InvalidUid)
    else if uid in users then Success(users[uid])
    else Failure(UserNotFound)
  }
}
