/** The authentication context: the signed-in user, their permissions and
    allowed routes, and their persistence in browser storage across reloads. */
module Auth {
  import opened Wrappers
  import opened Permissions

  const SessionKey := "fpda_user_session"
  const PermsKey := "fpda_user_permissions"

  /** The signed-in user as the login page hands it over. */
  datatype UserSession = UserSession(userCode: string, userName: string)

  /** What JSON.parse makes of a stored text: an exception or a value. */
  datatype Parsed<T> = ParseError | Value(v: T)

  /** The permissions request: it throws, or answers with an envelope whose
      `data` is an array, with a bare array, or with anything else. */
  datatype PermissionsReply =
    | Threw
    | DataArray(data: seq<UserPermission>)
    | BareArray(list: seq<UserPermission>)
    | NoArray

  /** The permissions taken from an answer: `data` when it is an array, else
      the answer itself when it is an array, else none. */
  function ReplyPermissions(reply: PermissionsReply): seq<UserPermission>
    requires !reply.Threw?
  {
    match reply
    case DataArray(d) => d
    case BareArray(l) => l
    case NoArray => []
  }

  /** localStorage.getItem(key) is truthy. */
  predicate Stored(storage: map<string, string>, key: string) {
    key in storage && storage[key] != ""
  }

  class AuthContext {
    var user: Option<UserSession>
    var permissions: seq<UserPermission>
    var allowedRoutes: set<string>
    var isLoading: bool
    /** The browser's localStorage. */
    var storage: map<string, string>

    /** The allowed routes are always those of the current permissions. */
    ghost predicate Valid()
      reads this
    {
      allowedRoutes == AllowedRoutes(permissions)
    }

    /** `!!user` */
    predicate IsAuthenticated()
      reads this
    {
      user.Some?
    }

    /** The provider's initial state, before the mount effect runs. */
    constructor(storage: map<string, string>)
      ensures user == None && permissions == [] && allowedRoutes == {Home} && isLoading
      ensures this.storage == storage
      ensures Valid()
    {
      user := None;
      permissions := [];
      allowedRoutes := {Home};
      isLoading := true;
      this.storage := storage;
    }

    /** The mount effect: restore the session and permissions saved by an
        earlier login. A parse failure removes both saved entries; when only
        the permissions fail to parse, the user has already been set. */
    method Restore(parseSession: string -> Parsed<Option<UserSession>>,
                   parsePermissions: string -> Parsed<seq<UserPermission>>)
      requires Valid()
      modifies this
      ensures Valid() && !isLoading
      ensures !Stored(old(storage), SessionKey) ==>
        user == old(user) && permissions == old(permissions) && storage == old(storage)
      ensures Stored(old(storage), SessionKey) && parseSession(old(storage)[SessionKey]).ParseError? ==>
        user == old(user) && permissions == old(permissions) &&
        storage == old(storage) - {SessionKey, PermsKey}
      ensures Stored(old(storage), SessionKey) && parseSession(old(storage)[SessionKey]).Value? ==>
        user == parseSession(old(storage)[SessionKey]).v &&
        (if !Stored(old(storage), PermsKey) then
           permissions == [] && storage == old(storage)
         else if parsePermissions(old(storage)[PermsKey]).Value? then
           permissions == parsePermissions(old(storage)[PermsKey]).v && storage == old(storage)
         else
           permissions == old(permissions) && storage == old(storage) - {SessionKey, PermsKey})
    {
      var storedSession := if SessionKey in storage then storage[SessionKey] else "";
      var storedPerms := if PermsKey in storage then storage[PermsKey] else "";
      if storedSession != "" {
        var parsedSession := parseSession(storedSession);
        if parsedSession.ParseError? {
          storage := storage - {SessionKey, PermsKey};
        } else {
          user := parsedSession.v;
          var parsedPerms := if storedPerms != "" then parsePermissions(storedPerms) else Value([]);
          if parsedPerms.ParseError? {
            storage := storage - {SessionKey, PermsKey};
          } else {
            permissions := parsedPerms.v;
            allowedRoutes := BuildAllowedRoutes(parsedPerms.v);
          }
        }
      }
      isLoading := false;
    }

    /** login: set and save the user, then fetch and save the permissions.
        When the fetch fails only the home route is allowed, and whatever
        permissions an earlier login saved stay saved. */
    method Login(userData: UserSession, stringifySession: UserSession -> string,
                 stringifyPermissions: seq<UserPermission> -> string, reply: PermissionsReply)
      requires Valid()
      modifies this
      ensures Valid() && user == Some(userData) && isLoading == old(isLoading)
      ensures reply.Threw? ==>
        permissions == [] && allowedRoutes == {Home} &&
        storage == old(storage)[SessionKey := stringifySession(userData)]
      ensures !reply.Threw? ==>
        permissions == ReplyPermissions(reply) &&
        storage == old(storage)[SessionKey := stringifySession(userData)]
                               [PermsKey := stringifyPermissions(ReplyPermissions(reply))]
    {
      user := Some(userData);
      storage := storage[SessionKey := stringifySession(userData)];
      if reply.Threw? {
        permissions := [];
        allowedRoutes := {Home};
      } else {
        var perms := ReplyPermissions(reply);
        permissions := perms;
        allowedRoutes := BuildAllowedRoutes(perms);
        storage := storage[PermsKey := stringifyPermissions(perms)];
      }
    }

    /** logout: forget the user and permissions, here and in storage. */
    method Logout()
      modifies this
      ensures Valid() && !IsAuthenticated() && isLoading == old(isLoading)
      ensures permissions == [] && allowedRoutes == {Home}
      ensures storage == old(storage) - {SessionKey, PermsKey}
    {
      user := None;
      permissions := [];
      allowedRoutes := {Home};
      storage := storage - {SessionKey, PermsKey};
    }
  }

  /** A page reload after a successful login restores the same user,
      permissions and routes, provided the saved texts parse back to what was
      saved. */
  method ReloadAfterLogin(before: map<string, string>, userData: UserSession,
                          stringifySession: UserSession -> string,
                          stringifyPermissions: seq<UserPermission> -> string,
                          parseSession: string -> Parsed<Option<UserSession>>,
                          parsePermissions: string -> Parsed<seq<UserPermission>>,
                          reply: PermissionsReply)
    returns (user: Option<UserSession>, perms: seq<UserPermission>, routes: set<string>)
    requires !reply.Threw?
    requires stringifySession(userData) != ""
    requires parseSession(stringifySession(userData)) == Value(Some(userData))
    requires stringifyPermissions(ReplyPermissions(reply)) != ""
    requires parsePermissions(stringifyPermissions(ReplyPermissions(reply))) == Value(ReplyPermissions(reply))
    ensures user == Some(userData) && perms == ReplyPermissions(reply)
    ensures routes == AllowedRoutes(ReplyPermissions(reply))
  {
    var page := new AuthContext(before);
    page.Login(userData, stringifySession, stringifyPermissions, reply);
    var reloaded := new AuthContext(page.storage);
    reloaded.Restore(parseSession, parsePermissions);
    user, perms, routes := reloaded.user, reloaded.permissions, reloaded.allowedRoutes;
  }

  /** A page reload after logout starts signed out with only the home route. */
  method ReloadAfterLogout(before: map<string, string>,
                           parseSession: string -> Parsed<Option<UserSession>>,
                           parsePermissions: string -> Parsed<seq<UserPermission>>)
    returns (user: Option<UserSession>, routes: set<string>)
    ensures user == None && routes == {Home}
  {
    var page := new AuthContext(before);
    page.Logout();
    var reloaded := new AuthContext(page.storage);
    reloaded.Restore(parseSession, parsePermissions);
    user, routes := reloaded.user, reloaded.allowedRoutes;
  }

  /** When the permission fetch fails at login, a reload brings back the
      permissions that an earlier login, not followed by a logout, left in
      storage: the new user then gets those routes, not just home. */
  method ReloadAfterFailedLogin(before: map<string, string>, userData: UserSession,
                                stringifySession: UserSession -> string,
                                stringifyPermissions: seq<UserPermission> -> string,
                                parseSession: string -> Parsed<Option<UserSession>>,
                                parsePermissions: string -> Parsed<seq<UserPermission>>)
    returns (liveRoutes: set<string>, reloadedRoutes: set<string>)
    requires stringifySession(userData) != ""
    requires parseSession(stringifySession(userData)) == Value(Some(userData))
    requires Stored(before, PermsKey) && parsePermissions(before[PermsKey]).Value?
    ensures liveRoutes == {Home}
    ensures reloadedRoutes == AllowedRoutes(parsePermissions(before[PermsKey]).v)
  {
    var page := new AuthContext(before);
    page.Login(userData, stringifySession, stringifyPermissions, Threw);
    liveRoutes := page.allowedRoutes;
    var reloaded := new AuthContext(page.storage);
    reloaded.Restore(parseSession, parsePermissions);
    reloadedRoutes := reloaded.allowedRoutes;
  }
}
