/** src/components/UserList.js: loading the directory, the search filter over
    it, and starting a chat with a listed user. */
module UserList {
  import opened Wrappers
  import opened Seqs
  import opened Strings
  import opened Store
  import opened ChatUtils
  import opened UsersRoute

  /** The search rule: the lower-cased query occurs in the lower-cased full name
      or user name. */
  predicate Matches(u: DirectoryUser, query: string)
  {
    Includes(Lower(u.fullName), Lower(query)) || Includes(Lower(u.username), Lower(query))
  }

  function MatchesQuery(query: string): DirectoryUser -> bool
  {
    (u: DirectoryUser) => Matches(u, query)
  }

  /** `filteredUsers`: a user is kept exactly when it matches. */
  function FilterUsers(users: seq<DirectoryUser>, query: string): (r: seq<DirectoryUser>)
    ensures forall u :: u in r <==> u in users && Matches(u, query)
  {
    Filter(users, MatchesQuery(query))
  }

  /** The kept users stay in the directory's order. */
  lemma FilterUsersKeepsOrder(users: seq<DirectoryUser>, query: string)
    ensures IsSubseq(FilterUsers(users, query), users)
  {
    FilterIsSubseq(users, MatchesQuery(query));
  }

  /** An empty search shows everyone. */
  lemma EmptyQueryKeepsAll(users: seq<DirectoryUser>)
    ensures FilterUsers(users, "") == users
  {
    forall i | 0 <= i < |users| ensures MatchesQuery("")(users[i]) {
      IncludesEmpty(Lower(users[i].fullName));
    }
    FilterAll(users, MatchesQuery(""));
  }

  /** The signed-in user as `useUser()` reports them. */
  datatype SignedInUser = SignedInUser(fullName: string, username: string, imageUrl: string)

  /** `user.fullName || user.username`. */
  function DisplayName(user: SignedInUser): (r: string)
    ensures user.fullName != "" ==> r == user.fullName
    ensures user.fullName == "" ==> r == user.username
  {
    if user.fullName != "" then user.fullName else user.username
  }

  /** `handleStartChat`: creates (or finds) the pair's chat with both snapshots and
      navigates to it. While `useUser()` has no user yet (`None`), reading
      `user.fullName` throws before any write; the error is logged and the page
      stays where it is. */
  method HandleStartChat(db: Db, currentUserId: string, user: Option<SignedInUser>, otherUser: DirectoryUser, now: int)
    returns (route: Option<string>)
    requires db.Valid()
    modifies db
    ensures db.Valid()
    ensures user.None? ==> route == None && db.State() == old(db.State())
    ensures user.Some? ==> route == Some("/chat/" + GenerateChatId(currentUserId, otherUser.id))
    ensures user.Some? ==> db.State() == GetOrCreateChatState(old(db.State()), currentUserId, otherUser.id,
                                                              UserData(DisplayName(user.value), user.value.imageUrl),
                                                              UserData(otherUser.fullName, otherUser.imageUrl), now)
  {
    if user.None? {
      return None;
    }
    var chatId := GetOrCreateChat(db, currentUserId, otherUser.id,
                                  UserData(DisplayName(user.value), user.value.imageUrl),
                                  UserData(otherUser.fullName, otherUser.imageUrl), now);
    route := Some("/chat/" + chatId);
  }

  /** What the page gets from `fetch('/api/users')`: a throw (network, or a body
      that is not JSON) or a JSON body with or without a `users` field. */
  datatype Fetched = Threw | Json(users: Option<seq<DirectoryUser>>)

  /** The JSON body of each endpoint answer: error answers carry no `users`. */
  function Body(r: Response): (f: Fetched)
    ensures f.Json?
    ensures f.users.Some? <==> r.Listed?
    ensures r.Listed? ==> f.users.value == r.users
  {
    match r
    case Listed(users) => Json(Some(users))
    case _ => Json(None)
  }

  class UserListView {
    var users: seq<DirectoryUser>
    var loading: bool
    var searchQuery: string

    constructor ()
      ensures users == [] && loading && searchQuery == ""
    {
      users := [];
      loading := true;
      searchQuery := "";
    }

    /** The list on screen. */
    function Shown(): seq<DirectoryUser>
      reads this
    {
      FilterUsers(users, searchQuery)
    }

    method SetSearchQuery(query: string)
      modifies this
      ensures searchQuery == query && users == old(users) && loading == old(loading)
    {
      searchQuery := query;
    }

    /** `fetchUsers`: `setUsers(data.users || [])`; a throw keeps the list; loading ends either way. */
    method FetchUsers(f: Fetched)
      modifies this
      ensures !loading && searchQuery == old(searchQuery)
      ensures f.Threw? ==> users == old(users)
      ensures f.Json? ==> users == (if f.users.Some? then f.users.value else [])
    {
      match f {
        case Threw =>
        case Json(list) =>
          users := if list.Some? then list.value else [];
      }
      loading := false;
    }
  }

  /** A freshly mounted list loading the directory: loading has ended, a failed
      or refused request shows nobody, and the caller is never listed. */
  method LoadDirectory(auth: Result<string, Failure>, fetched: Result<seq<ClerkUser>, Failure>, networkFails: bool)
    returns (shown: seq<DirectoryUser>, loading: bool)
    ensures !loading
    ensures networkFails || !Get(auth, fetched).Listed? ==> shown == []
    ensures auth.Ok? ==> forall i :: 0 <= i < |shown| ==> shown[i].id != auth.value
    ensures !networkFails && Get(auth, fetched).Listed? ==> shown == Get(auth, fetched).users
  {
    var view := new UserListView();
    view.FetchUsers(if networkFails then Threw else Body(Get(auth, fetched)));
    shown := view.Shown();
    EmptyQueryKeepsAll(view.users);
    loading := view.loading;
  }
}
