/** src/app/api/users/route.js: the directory endpoint. It authenticates the
    caller, takes the identity provider's user list (a foreign call, here an
    input), drops the caller and formats each remaining user with fallbacks.
    A missing string field (`null` or `undefined`) is the empty string. */
module UsersRoute {
  import opened Wrappers
  import opened Seqs
  import opened Strings

  /** The fields of an identity-provider user that the endpoint reads. */
  datatype ClerkUser = ClerkUser(id: string, username: string, firstName: string, lastName: string,
                                 imageUrl: string, emailAddresses: seq<string>, createdAt: int)

  /** One listed user. */
  datatype DirectoryUser = DirectoryUser(id: string, username: string, fullName: string,
                                         imageUrl: string, emailAddress: string, createdAt: int)

  /** A call to a foreign service that threw. */
  datatype Failure = Failure

  datatype Response = Unauthorized | ServerError | Listed(users: seq<DirectoryUser>)

  /** `user.username || user.firstName || 'Anonymous'`. */
  function DisplayUsername(u: ClerkUser): (r: string)
    ensures r != ""
    ensures u.username != "" ==> r == u.username
    ensures u.username == "" && u.firstName != "" ==> r == u.firstName
    ensures u.username == "" && u.firstName == "" ==> r == "Anonymous"
  {
    if u.username != "" then u.username else if u.firstName != "" then u.firstName else "Anonymous"
  }

  /** The trimmed `first + ' ' + last`, or 'Anonymous User' when both names are
      blank; never empty and never padded with white space. A name that is not
      all white space gives its own middle block, stripped of the white space
      around it. */
  function FullName(u: ClerkUser): (r: string)
    ensures r != ""
    ensures !IsSpace(r[0]) && !IsSpace(r[|r| - 1])
    ensures (forall i :: 0 <= i < |u.firstName + " " + u.lastName| ==> IsSpace((u.firstName + " " + u.lastName)[i]))
            ==> r == "Anonymous User"
    ensures var joined := u.firstName + " " + u.lastName;
      (exists i :: 0 <= i < |joined| && !IsSpace(joined[i])) ==> exists i :: 0 <= i && StripsTo(joined, i, r)
  {
    var t := Trim(u.firstName + " " + u.lastName);
    if t != "" then t
    else
      assert !IsSpace('A') && !IsSpace('r');
      "Anonymous User"
  }

  /** `user.emailAddresses[0]?.emailAddress || ''`. */
  function FirstEmail(u: ClerkUser): (r: string)
    ensures |u.emailAddresses| > 0 ==> r == u.emailAddresses[0]
    ensures |u.emailAddresses| == 0 ==> r == ""
  {
    if |u.emailAddresses| > 0 then u.emailAddresses[0] else ""
  }

  function Format(u: ClerkUser): (r: DirectoryUser)
    ensures r.id == u.id && r.imageUrl == u.imageUrl && r.createdAt == u.createdAt
    ensures r.username == DisplayUsername(u) && r.fullName == FullName(u) && r.emailAddress == FirstEmail(u)
    ensures r.username != "" && r.fullName != ""
  {
    DirectoryUser(u.id, DisplayUsername(u), FullName(u), u.imageUrl, FirstEmail(u), u.createdAt)
  }

  function NotCaller(caller: string): ClerkUser -> bool
  {
    (u: ClerkUser) => u.id != caller
  }

  lemma FormatKeepsIds(list: seq<ClerkUser>)
    ensures forall i :: 0 <= i < |list| ==> Map(Format, list)[i].id == list[i].id
  {
    var r := Map(Format, list);
    forall i | 0 <= i < |list| ensures r[i].id == list[i].id {
      assert r[i] == Format(list[i]);
    }
  }

  /** `GET`: a failed `auth()` or user-list call answers 500, a request without
      a caller id 401, and otherwise every user but the caller, formatted. */
  function Get(auth: Result<string, Failure>, fetched: Result<seq<ClerkUser>, Failure>): (r: Response)
    ensures auth.Err? ==> r == ServerError
    ensures auth == Ok("") ==> r == Unauthorized
    ensures auth.Ok? && auth.value != "" && fetched.Err? ==> r == ServerError
    ensures r.Listed? <==> auth.Ok? && auth.value != "" && fetched.Ok?
    ensures r.Listed? ==> forall i :: 0 <= i < |r.users| ==> r.users[i].id != auth.value
    ensures r.Listed? ==> forall i :: 0 <= i < |r.users| ==>
      exists u :: u in fetched.value && u.id != auth.value && r.users[i] == Format(u)
  {
    if auth.Err? then ServerError
    else if auth.value == "" then Unauthorized
    else if fetched.Err? then ServerError
    else
      var kept := Filter(fetched.value, NotCaller(auth.value));
      FormatKeepsIds(kept);
      Listed(Map(Format, kept))
  }

  function ClerkId(u: ClerkUser): string
  {
    u.id
  }

  function DirId(u: DirectoryUser): string
  {
    u.id
  }

  function IsNot(caller: string): string -> bool
  {
    (x: string) => x != caller
  }

  lemma {:induction false} IdsAfterFilter(list: seq<ClerkUser>, caller: string)
    ensures Map(DirId, Map(Format, Filter(list, NotCaller(caller)))) == Filter(Map(ClerkId, list), IsNot(caller))
  {
    if list != [] {
      IdsAfterFilter(list[1..], caller);
      assert Map(ClerkId, list)[1..] == Map(ClerkId, list[1..]);
      var rest := Filter(list[1..], NotCaller(caller));
      if list[0].id != caller {
        assert Filter(list, NotCaller(caller)) == [list[0]] + rest;
        assert Map(Format, [list[0]] + rest) == [Format(list[0])] + Map(Format, rest);
        assert Map(DirId, [Format(list[0])] + Map(Format, rest)) == [list[0].id] + Map(DirId, Map(Format, rest));
      }
    }
  }

  /** The listed ids are exactly the fetched ids other than the caller's, in the
      fetched order. */
  lemma ListedIdsInOrder(caller: string, list: seq<ClerkUser>)
    requires caller != ""
    ensures var r := Get(Ok(caller), Ok(list));
      && Map(DirId, r.users) == Filter(Map(ClerkId, list), IsNot(caller))
      && IsSubseq(Map(DirId, r.users), Map(ClerkId, list))
  {
    IdsAfterFilter(list, caller);
    FilterIsSubseq(Map(ClerkId, list), IsNot(caller));
  }
}
