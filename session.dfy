/**
 * The signed cookie session of actix-session, reduced to the two kinds of
 * entry the handlers write: `uid`, the signed-in user, and `seen_{uid}`,
 * the marks of users who have signed in from this browser before.
 */
module Sessions {
  import opened Wrappers
  import opened Store

  class Session {
    var uid: Option<Id>
    var seen: set<Id>

    /** A browser without a session cookie. */
    constructor Blank()
      ensures uid == None && seen == {}
    {
      uid := None;
      seen := {};
    }

    /** `session.insert("uid", ..)`: the user is signed in. */
    method SignIn(user: Id)
      modifies this`uid
      ensures uid == Some(user)
    {
      uid := Some(user);
    }

    /** `session.insert(format!("seen_{uid}"), true)`. */
    method MarkSeen(user: Id)
      modifies this`seen
      ensures seen == old(seen) + {user}
    {
      seen := seen + {user};
    }

    /** `session.purge()`: every entry is removed. */
    method Purge()
      modifies this
      ensures uid == None && seen == {}
    {
      uid := None;
      seen := {};
    }
  }
}
