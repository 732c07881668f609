/** The friend-request ledger and the friend graph of the user controller
    (backend/src/controllers/user.controller.js).

    The document store is two tables: the users, each with a friend list, and
    the friend requests, each with a sender, a recipient and a status. A
    request's id is its position in the request table (insertion order). The
    read-only endpoints are functions over the tables; sending and accepting a
    request are methods of `Store`, proved against the step functions
    `SendStep` and `AcceptStep`, about which the lemmas below are stated. */
module FriendLedger {
  import opened Common

  type UserId = string

  /** A request is created pending and can only become accepted. */
  datatype Status = Pending | Accepted

  datatype User = User(
    id: UserId,
    fullName: string,
    profilePic: string,
    nativeLanguage: string,
    learningLanguage: string,
    isOnboarded: bool,
    friends: seq<UserId>)

  datatype FriendRequest = FriendRequest(sender: UserId, recipient: UserId, status: Status)

  /** The two tables of the document store. */
  datatype Tables = Tables(users: seq<User>, requests: seq<FriendRequest>)

  /** The public fields a `populate` projection keeps; the language tags are
      absent when the projection leaves them out. */
  datatype Profile = Profile(
    id: UserId,
    fullName: string,
    profilePic: string,
    nativeLanguage: Option<string>,
    learningLanguage: Option<string>)

  /** A request as listed, with the other party populated (`None` when that
      user does not exist, as `populate` yields null). */
  datatype RequestView = RequestView(id: nat, request: FriendRequest, other: Option<Profile>)

  datatype FriendRequestsView = FriendRequestsView(incomingReqs: seq<RequestView>, acceptedReqs: seq<RequestView>)

  datatype SendError = SelfRequest | RecipientNotFound | AlreadyFriends | AlreadyRequested

  datatype SendResult = Sent(id: nat, request: FriendRequest) | SendRejected(error: SendError)

  datatype AcceptResult = AcceptedOk | RequestNotFound | NotRecipient

  /** The HTTP status each outcome is answered with. */
  function SendStatusCode(r: SendResult): (code: int)
    ensures code == 201 <==> r.Sent?
    ensures code == 404 <==> r == SendRejected(RecipientNotFound)
    ensures code == 400 <==> r.SendRejected? && r.error != RecipientNotFound
  {
    match r
    case Sent(_, _) => 201
    case SendRejected(RecipientNotFound) => 404
    case SendRejected(_) => 400
  }

  function AcceptStatusCode(r: AcceptResult): (code: int)
    ensures code == 200 <==> r == AcceptedOk
    ensures code == 404 <==> r == RequestNotFound
    ensures code == 403 <==> r == NotRecipient
  {
    match r
    case AcceptedOk => 200
    case RequestNotFound => 404
    case NotRecipient => 403
  }

  // ---------------------------------------------------------------------------
  // Invariants of the tables

  /** `_id` is unique in the user table. */
  ghost predicate DistinctIds(users: seq<User>) {
    forall i, j :: 0 <= i < j < |users| ==> users[i].id != users[j].id
  }

  ghost predicate NoDuplicates(s: seq<UserId>) {
    forall i, j :: 0 <= i < j < |s| ==> s[i] != s[j]
  }

  /** The friend relation between existing users is symmetric. */
  ghost predicate Symmetric(users: seq<User>) {
    forall i, j :: 0 <= i < |users| && 0 <= j < |users| ==>
      (users[j].id in users[i].friends <==> users[i].id in users[j].friends)
  }

  ghost predicate GraphInvariant(users: seq<User>) {
    && DistinctIds(users)
    && (forall i :: 0 <= i < |users| ==> NoDuplicates(users[i].friends))
    && Symmetric(users)
  }

  /** The request at `i` links `a` and `b`, in either direction. */
  predicate Between(r: FriendRequest, a: UserId, b: UserId) {
    (r.sender == a && r.recipient == b) || (r.sender == b && r.recipient == a)
  }

  /** No two records for the same unordered pair, and none from a user to themself. */
  ghost predicate LedgerInvariant(requests: seq<FriendRequest>) {
    && (forall i :: 0 <= i < |requests| ==> requests[i].sender != requests[i].recipient)
    && (forall i, j :: 0 <= i < j < |requests| ==>
          !Between(requests[j], requests[i].sender, requests[i].recipient))
  }

  ghost predicate Invariant(t: Tables) {
    GraphInvariant(t.users) && LedgerInvariant(t.requests)
  }

  // ---------------------------------------------------------------------------
  // Lookups

  /** `User.findById`: the first user with that id. */
  function FindUser(users: seq<User>, id: UserId): (r: Option<User>)
    ensures r.Some? ==> r.value in users && r.value.id == id
    ensures r.None? ==> forall u :: u in users ==> u.id != id
  {
    if users == [] then None
    else if users[0].id == id then Some(users[0])
    else FindUser(users[1..], id)
  }

  /** Under unique ids, the user found is the one at any index holding that id. */
  lemma {:induction false} FindUserAt(users: seq<User>, i: nat)
    requires DistinctIds(users) && i < |users|
    ensures FindUser(users, users[i].id) == Some(users[i])
  {
    if i > 0 {
      assert users[0].id != users[i].id;
      assert DistinctIds(users[1..]) by {
        forall a, b | 0 <= a < b < |users| - 1 ensures users[1..][a].id != users[1..][b].id {
          assert users[a + 1].id != users[b + 1].id;
        }
      }
      FindUserAt(users[1..], i - 1);
    }
  }

  /** `FriendRequest.findOne` with the `$or` of both directions. */
  function FindBetween(requests: seq<FriendRequest>, a: UserId, b: UserId): (r: Option<nat>)
    ensures r.Some? ==> r.value < |requests| && Between(requests[r.value], a, b)
    ensures r.None? ==> forall i :: 0 <= i < |requests| ==> !Between(requests[i], a, b)
  {
    if requests == [] then None
    else
      match FindBetween(requests[..|requests| - 1], a, b)
      case Some(i) => Some(i)
      case None => if Between(requests[|requests| - 1], a, b) then Some(|requests| - 1) else None
  }

  /** The projection a `populate` applies. */
  function Project(u: User, withLanguages: bool): (p: Profile)
    ensures p.id == u.id && p.fullName == u.fullName && p.profilePic == u.profilePic
    ensures withLanguages <==> p.nativeLanguage.Some? && p.learningLanguage.Some?
    ensures withLanguages ==> p.nativeLanguage == Some(u.nativeLanguage) && p.learningLanguage == Some(u.learningLanguage)
  {
    Profile(u.id, u.fullName, u.profilePic,
            if withLanguages then Some(u.nativeLanguage) else None,
            if withLanguages then Some(u.learningLanguage) else None)
  }

  /** `populate` of a single reference: the projected user, or null. */
  function Populate(users: seq<User>, id: UserId, withLanguages: bool): Option<Profile> {
    match FindUser(users, id)
    case Some(u) => Some(Project(u, withLanguages))
    case None => None
  }

  // ---------------------------------------------------------------------------
  // Read-only endpoints

  /** `getRecommendedUsers`: a filter of the user table in table order. */
  function Recommended(users: seq<User>, me: User): (r: seq<User>)
    ensures |r| <= |users|
  {
    if users == [] then []
    else
      var u := users[|users| - 1];
      Recommended(users[..|users| - 1], me)
        + (if u.id != me.id && u.id !in me.friends && u.isOnboarded then [u] else [])
  }

  /** Recommendations are exactly the onboarded users that are neither the
      caller nor in the caller's friend list. */
  lemma {:induction false} RecommendedExactly(users: seq<User>, me: User, u: User)
    ensures u in Recommended(users, me) <==>
      u in users && u.id != me.id && u.id !in me.friends && u.isOnboarded
  {
    if users != [] {
      var init := users[..|users| - 1];
      RecommendedExactly(init, me, u);
      assert users == init + [users[|users| - 1]];
    }
  }

  /** The friend list with each id resolved; ids without a user are dropped,
      as `populate` does on an array. */
  function Resolve(users: seq<User>, ids: seq<UserId>): (r: seq<Profile>)
    ensures |r| <= |ids|
  {
    if ids == [] then []
    else
      Resolve(users, ids[..|ids| - 1])
        + match FindUser(users, ids[|ids| - 1])
          case Some(u) => [Project(u, true)]
          case None => []
  }

  lemma {:induction false} ResolveExactly(users: seq<User>, ids: seq<UserId>, p: Profile)
    ensures p in Resolve(users, ids) <==>
      exists u :: u in users && u.id in ids && FindUser(users, u.id) == Some(u) && p == Project(u, true)
  {
    if ids != [] {
      var init, last := ids[..|ids| - 1], ids[|ids| - 1];
      ResolveExactly(users, init, p);
      assert ids == init + [last];
      if exists u :: u in users && u.id in ids && FindUser(users, u.id) == Some(u) && p == Project(u, true) {
        var u :| u in users && u.id in ids && FindUser(users, u.id) == Some(u) && p == Project(u, true);
        if u.id !in init {
          assert u.id == last;
        }
      }
    }
  }

  /** `getMyFriends`: `None` when the caller's record is gone (the endpoint
      then fails with 500). */
  function MyFriends(users: seq<User>, meId: UserId): (r: Option<seq<Profile>>)
    ensures r.None? <==> FindUser(users, meId).None?
  {
    match FindUser(users, meId)
    case Some(me) => Some(Resolve(users, me.friends))
    case None => None
  }

  /** Under unique ids, the friends listed are exactly the existing users in
      the caller's friend list. */
  lemma FriendsListed(users: seq<User>, i: nat, p: Profile)
    requires DistinctIds(users) && i < |users|
    ensures MyFriends(users, users[i].id).Some?
    ensures p in MyFriends(users, users[i].id).value <==>
      exists j :: 0 <= j < |users| && users[j].id in users[i].friends && p == Project(users[j], true)
  {
    FindUserAt(users, i);
    ResolveExactly(users, users[i].friends, p);
    if exists j :: 0 <= j < |users| && users[j].id in users[i].friends && p == Project(users[j], true) {
      var j :| 0 <= j < |users| && users[j].id in users[i].friends && p == Project(users[j], true);
      FindUserAt(users, j);
    }
    if exists u :: u in users && u.id in users[i].friends && FindUser(users, u.id) == Some(u) && p == Project(u, true) {
      var u :| u in users && u.id in users[i].friends && FindUser(users, u.id) == Some(u) && p == Project(u, true);
      var j :| 0 <= j < |users| && users[j] == u;
    }
  }

  /** Which side of a request the caller must be on. */
  datatype Side = AsSender | AsRecipient

  predicate Selects(r: FriendRequest, me: UserId, side: Side, status: Status) {
    r.status == status && (if side == AsSender then r.sender == me else r.recipient == me)
  }

  /** The ids of the requests a `FriendRequest.find` with that filter returns,
      in table order. */
  function Matching(requests: seq<FriendRequest>, me: UserId, side: Side, status: Status): (r: seq<nat>)
    ensures forall k :: 0 <= k < |r| ==> r[k] < |requests|
    ensures forall i: nat :: i in r <==> i < |requests| && Selects(requests[i], me, side, status)
    ensures forall k, l :: 0 <= k < l < |r| ==> r[k] < r[l]
  {
    if requests == [] then []
    else
      var n := |requests| - 1;
      Matching(requests[..n], me, side, status)
        + (if Selects(requests[n], me, side, status) then [n] else [])
  }

  /** `r` lists every request with that filter, each once under its own id, and nothing else. */
  ghost predicate ListsExactly(t: Tables, r: seq<RequestView>, me: UserId, side: Side, status: Status) {
    && (forall v :: v in r ==>
          v.id < |t.requests| && v.request == t.requests[v.id] && Selects(v.request, me, side, status))
    && (forall i :: 0 <= i < |t.requests| && Selects(t.requests[i], me, side, status) ==>
          exists v :: v in r && v.id == i)
  }

  function Views(t: Tables, ids: seq<nat>, otherIsSender: bool, withLanguages: bool): (r: seq<RequestView>)
    requires forall k :: 0 <= k < |ids| ==> ids[k] < |t.requests|
    ensures |r| == |ids|
    ensures forall k :: 0 <= k < |r| ==> r[k].id == ids[k] && r[k].request == t.requests[ids[k]]
  {
    seq(|ids|, k requires 0 <= k < |ids| =>
      var req := t.requests[ids[k]];
      RequestView(ids[k], req,
        Populate(t.users, if otherIsSender then req.sender else req.recipient, withLanguages)))
  }

  /** Pending requests addressed to `me`, with the sender populated. */
  function Incoming(t: Tables, me: UserId): (r: seq<RequestView>)
    ensures ListsExactly(t, r, me, AsRecipient, Pending)
    ensures forall v :: v in r ==> v.other == Populate(t.users, v.request.sender, true)
  {
    var ids := Matching(t.requests, me, AsRecipient, Pending);
    var r := Views(t, ids, true, true);
    assert forall k :: 0 <= k < |ids| ==> r[k].id == ids[k];
    r
  }

  /** Accepted requests `me` sent, with the recipient populated (name and picture only). */
  function AcceptedReqs(t: Tables, me: UserId): (r: seq<RequestView>)
    ensures ListsExactly(t, r, me, AsSender, Accepted)
    ensures forall v :: v in r ==> v.other == Populate(t.users, v.request.recipient, false)
  {
    var ids := Matching(t.requests, me, AsSender, Accepted);
    var r := Views(t, ids, false, false);
    assert forall k :: 0 <= k < |ids| ==> r[k].id == ids[k];
    r
  }

  /** Pending requests `me` sent, with the recipient populated. */
  function Outgoing(t: Tables, me: UserId): (r: seq<RequestView>)
    ensures ListsExactly(t, r, me, AsSender, Pending)
    ensures forall v :: v in r ==> v.other == Populate(t.users, v.request.recipient, true)
  {
    var ids := Matching(t.requests, me, AsSender, Pending);
    var r := Views(t, ids, false, true);
    assert forall k :: 0 <= k < |ids| ==> r[k].id == ids[k];
    r
  }

  /** `getFriendRequests`: the incoming and the accepted listings together. */
  function FriendRequests(t: Tables, me: UserId): (r: FriendRequestsView)
    ensures r.incomingReqs == Incoming(t, me) && r.acceptedReqs == AcceptedReqs(t, me)
  {
    FriendRequestsView(Incoming(t, me), AcceptedReqs(t, me))
  }

  // ---------------------------------------------------------------------------
  // Friend-list updates

  /** `$addToSet`: append unless already present. */
  function AddToSet(s: seq<UserId>, x: UserId): (r: seq<UserId>)
    ensures x in r
    ensures forall y :: y in r <==> y in s || y == x
    ensures NoDuplicates(s) ==> NoDuplicates(r)
  {
    if x in s then s else s + [x]
  }

  /** `User.findByIdAndUpdate(target, { $addToSet: { friends: friend } })`;
      no user changes when `target` does not exist. */
  function AddFriend(users: seq<User>, target: UserId, friend: UserId): (r: seq<User>)
    ensures |r| == |users|
    ensures forall i :: 0 <= i < |users| ==>
      r[i] == if users[i].id == target then users[i].(friends := AddToSet(users[i].friends, friend)) else users[i]
  {
    if users == [] then []
    else
      var u := users[0];
      [if u.id == target then u.(friends := AddToSet(u.friends, friend)) else u]
        + AddFriend(users[1..], target, friend)
  }

  /** The two updates an acceptance makes, in the order it makes them. */
  function Befriend(users: seq<User>, sender: UserId, recipient: UserId): seq<User> {
    AddFriend(AddFriend(users, sender, recipient), recipient, sender)
  }

  /** After `Befriend`, each of the two existing users lists the other, and
      every other user and every id is as before. */
  lemma BefriendLinks(users: seq<User>, a: UserId, b: UserId)
    ensures var r := Befriend(users, a, b);
      && |r| == |users|
      && (forall i :: 0 <= i < |r| ==> r[i].id == users[i].id)
      && (forall i :: 0 <= i < |r| && r[i].id == a ==> b in r[i].friends)
      && (forall i :: 0 <= i < |r| && r[i].id == b ==> a in r[i].friends)
      && (forall i :: 0 <= i < |r| && r[i].id != a && r[i].id != b ==> r[i] == users[i])
      && (forall i, x :: 0 <= i < |r| ==> (x in r[i].friends <==>
            x in users[i].friends || (users[i].id == a && x == b) || (users[i].id == b && x == a)))
  {
  }

  /** Accepting keeps the friend graph symmetric and duplicate-free. */
  lemma {:induction false} BefriendPreservesGraph(users: seq<User>, a: UserId, b: UserId)
    requires GraphInvariant(users)
    ensures GraphInvariant(Befriend(users, a, b))
  {
    BefriendLinks(users, a, b);
    var r := Befriend(users, a, b);
    var mid := AddFriend(users, a, b);
    forall i | 0 <= i < |r| ensures NoDuplicates(r[i].friends) {
      assert NoDuplicates(mid[i].friends);
    }
    forall i, j | 0 <= i < |r| && 0 <= j < |r|
      ensures r[j].id in r[i].friends <==> r[i].id in r[j].friends
    {
      assert users[j].id in users[i].friends <==> users[i].id in users[j].friends;
    }
  }

  lemma AddFriendIdempotent(users: seq<User>, target: UserId, friend: UserId)
    ensures AddFriend(AddFriend(users, target, friend), target, friend) == AddFriend(users, target, friend)
  {
    var once := AddFriend(users, target, friend);
    var twice := AddFriend(once, target, friend);
    assert forall i :: 0 <= i < |users| ==> twice[i] == once[i];
  }

  /** Accepting a second time changes no friend list. */
  lemma {:induction false} BefriendIdempotent(users: seq<User>, a: UserId, b: UserId)
    ensures Befriend(Befriend(users, a, b), a, b) == Befriend(users, a, b)
  {
    var once := Befriend(users, a, b);
    var twice := Befriend(once, a, b);
    BefriendLinks(users, a, b);
    BefriendLinks(once, a, b);
    forall i | 0 <= i < |users| ensures twice[i] == once[i] {
      assert twice[i].friends == once[i].friends by {
        var m1 := AddFriend(users, a, b);
        var m2 := AddFriend(once, a, b);
        if once[i].id == a {
          assert b in once[i].friends;
          assert m2[i] == once[i];
        }
      }
    }
  }

  // ---------------------------------------------------------------------------
  // The two state-changing endpoints as step functions

  /** The guards of `sendFriendRequest` after the self check, in the order
      the endpoint checks them, then the new pending record. */
  function SendPastSelfCheck(t: Tables, me: UserId, recipientId: UserId): (out: (SendResult, Tables))
    ensures out.0 != SendRejected(SelfRequest)
    ensures out.1.users == t.users
    ensures out.0.Sent? <==> out.1.requests != t.requests
    ensures out.0.Sent? ==>
      && out.0.id == |t.requests|
      && out.0.request == FriendRequest(me, recipientId, Pending)
      && out.1.requests == t.requests + [out.0.request]
  {
    match FindUser(t.users, recipientId)
    case None => (SendRejected(RecipientNotFound), t)
    case Some(recipient) =>
      if me in recipient.friends then (SendRejected(AlreadyFriends), t)
      else if FindBetween(t.requests, me, recipientId).Some? then (SendRejected(AlreadyRequested), t)
      else
        var fr := FriendRequest(me, recipientId, Pending);
        (Sent(|t.requests|, fr), Tables(t.users, t.requests + [fr]))
  }

  /** `sendFriendRequest` with the self check comparing the two ids, as the
      400 answer "You cannot send a friend request to yourself" intends. */
  function SendStep(t: Tables, me: UserId, recipientId: UserId): (out: (SendResult, Tables))
    ensures out.0 == SendRejected(SelfRequest) <==> me == recipientId
    ensures out.1.users == t.users
    ensures out.0.Sent? <==> out.1.requests != t.requests
    ensures out.0.Sent? ==>
      && out.0.id == |t.requests|
      && out.0.request == FriendRequest(me, recipientId, Pending)
      && out.1.requests == t.requests + [out.0.request]
  {
    if me == recipientId then (SendRejected(SelfRequest), t)
    else SendPastSelfCheck(t, me, recipientId)
  }

  /** The two operands of the self check at run time: the caller's `_id` is
      an ObjectId object, the route parameter a string. */
  datatype JsValue = JsString(s: string) | JsObjectId(hex: string)

  /** JavaScript `===`: strings compare by content; an object is strictly
      equal only to itself, never to a string. */
  predicate StrictEquals(a: JsValue, b: JsValue) {
    a.JsString? && b.JsString? && a.s == b.s
  }

  /** `sendFriendRequest` as written: the self check is `myId === recipientId`
      with `myId` an ObjectId. */
  function SendStepAsWritten(t: Tables, me: UserId, recipientId: UserId): (out: (SendResult, Tables))
    ensures out.0 != SendRejected(SelfRequest)
  {
    if StrictEquals(JsObjectId(me), JsString(recipientId)) then (SendRejected(SelfRequest), t)
    else SendPastSelfCheck(t, me, recipientId)
  }

  /** As written, a registered user who is not on their own friend list can
      send a request to themself: it is created, and the ledger then holds a
      self-addressed record. The corrected step refuses it. */
  lemma SelfRequestSlipsThrough(t: Tables, me: UserId)
    requires Invariant(t)
    requires exists u :: u in t.users && u.id == me && me !in u.friends
    ensures SendStepAsWritten(t, me, me).0 == Sent(|t.requests|, FriendRequest(me, me, Pending))
    ensures !LedgerInvariant(SendStepAsWritten(t, me, me).1.requests)
    ensures SendStep(t, me, me) == (SendRejected(SelfRequest), t)
    ensures SendStatusCode(SendStepAsWritten(t, me, me).0) == 201 && SendStatusCode(SendStep(t, me, me).0) == 400
  {
    var u :| u in t.users && u.id == me && me !in u.friends;
    var k :| 0 <= k < |t.users| && t.users[k] == u;
    FindUserAt(t.users, k);
    var out := SendStepAsWritten(t, me, me);
    assert out.1.requests[|t.requests|] == FriendRequest(me, me, Pending);
  }

  /** Each guard of `sendFriendRequest`, and what passing all of them means. */
  lemma SendOutcomes(t: Tables, me: UserId, recipientId: UserId)
    requires DistinctIds(t.users)
    ensures var r := SendStep(t, me, recipientId).0;
      && (me == recipientId ==> r == SendRejected(SelfRequest))
      && ((me != recipientId && forall u :: u in t.users ==> u.id != recipientId) ==>
            r == SendRejected(RecipientNotFound))
      && (r == SendRejected(AlreadyFriends) <==>
            me != recipientId && exists u :: u in t.users && u.id == recipientId && me in u.friends)
      && (r == SendRejected(AlreadyRequested) ==>
            exists i :: 0 <= i < |t.requests| && Between(t.requests[i], me, recipientId))
      && (r.Sent? <==>
            && me != recipientId
            && (exists u :: u in t.users && u.id == recipientId)
            && (forall u :: u in t.users && u.id == recipientId ==> me !in u.friends)
            && (forall i :: 0 <= i < |t.requests| ==> !Between(t.requests[i], me, recipientId)))
  {
    var found := FindUser(t.users, recipientId);
    if found.Some? {
      var k :| 0 <= k < |t.users| && t.users[k] == found.value;
      FindUserAt(t.users, k);
      forall u | u in t.users && u.id == recipientId ensures u == found.value {
        var j :| 0 <= j < |t.users| && t.users[j] == u;
        FindUserAt(t.users, j);
      }
    }
  }

  /** Sending keeps every record pair-unique and never self-addressed. */
  lemma SendPreservesInvariant(t: Tables, me: UserId, recipientId: UserId)
    requires Invariant(t)
    ensures Invariant(SendStep(t, me, recipientId).1)
  {
    var out := SendStep(t, me, recipientId);
    if out.0.Sent? {
      SendOutcomes(t, me, recipientId);
      var rs := out.1.requests;
      forall i, j | 0 <= i < j < |rs| ensures !Between(rs[j], rs[i].sender, rs[i].recipient) {
        if j == |rs| - 1 {
          assert !Between(t.requests[i], me, recipientId);
        }
      }
    }
  }

  /** `acceptFriendRequest`: the request must exist and be addressed to the
      caller; its status becomes accepted (whatever it was), then each side is
      added to the other's friend list. */
  function AcceptStep(t: Tables, id: nat, caller: UserId): (out: (AcceptResult, Tables))
    ensures out.0 == RequestNotFound <==> id >= |t.requests|
    ensures out.0 == NotRecipient <==> id < |t.requests| && t.requests[id].recipient != caller
    ensures out.0 != AcceptedOk ==> out.1 == t
    ensures out.0 == AcceptedOk ==>
      && |out.1.requests| == |t.requests|
      && out.1.requests[id].status == Accepted
      && out.1.requests[id].sender == t.requests[id].sender
      && out.1.requests[id].recipient == caller
      && forall i :: 0 <= i < |t.requests| && i != id ==> out.1.requests[i] == t.requests[i]
  {
    if id >= |t.requests| then (RequestNotFound, t)
    else
      var fr := t.requests[id];
      if fr.recipient != caller then (NotRecipient, t)
      else
        var requests := t.requests[id := fr.(status := Accepted)];
        (AcceptedOk, Tables(Befriend(t.users, fr.sender, fr.recipient), requests))
  }

  lemma AcceptPreservesInvariant(t: Tables, id: nat, caller: UserId)
    requires Invariant(t)
    ensures Invariant(AcceptStep(t, id, caller).1)
  {
    if id < |t.requests| && t.requests[id].recipient == caller {
      BefriendPreservesGraph(t.users, t.requests[id].sender, caller);
    }
  }

  /** After a successful accept, sender and recipient (where they exist) list
      each other as friends. */
  lemma AcceptLinks(t: Tables, id: nat, caller: UserId)
    requires AcceptStep(t, id, caller).0 == AcceptedOk
    ensures var users := AcceptStep(t, id, caller).1.users;
      && (forall i :: 0 <= i < |users| && users[i].id == t.requests[id].sender ==> caller in users[i].friends)
      && (forall i :: 0 <= i < |users| && users[i].id == caller ==> t.requests[id].sender in users[i].friends)
  {
    BefriendLinks(t.users, t.requests[id].sender, caller);
  }

  /** Accepting the same request twice leaves the tables as after the first time. */
  lemma AcceptIdempotent(t: Tables, id: nat, caller: UserId)
    requires AcceptStep(t, id, caller).0 == AcceptedOk
    ensures var once := AcceptStep(t, id, caller).1;
      AcceptStep(once, id, caller) == (AcceptedOk, once)
  {
    var fr := t.requests[id];
    var once := AcceptStep(t, id, caller).1;
    BefriendIdempotent(t.users, fr.sender, fr.recipient);
    assert once.requests[id].(status := Accepted) == once.requests[id];
    assert once.requests[id := once.requests[id]] == once.requests;
  }

  /** A request B sends to A is refused once A has sent one to B. */
  lemma SecondDirectionRefused(t: Tables, a: UserId, b: UserId)
    requires DistinctIds(t.users) && Symmetric(t.users)
    requires SendStep(t, a, b).0.Sent?
    requires exists u :: u in t.users && u.id == a
    ensures SendStep(SendStep(t, a, b).1, b, a).0 == SendRejected(AlreadyRequested)
  {
    var t1 := SendStep(t, a, b).1;
    SendOutcomes(t, a, b);
    SendOutcomes(t1, b, a);
    var ua :| ua in t.users && ua.id == a;
    var ub :| ub in t.users && ub.id == b;
    var i :| 0 <= i < |t.users| && t.users[i] == ua;
    var j :| 0 <= j < |t.users| && t.users[j] == ub;
    assert a !in ub.friends;
    assert b !in ua.friends;
    assert Between(t1.requests[|t.requests|], b, a);
  }

  /** Sending then accepting by the recipient makes the two users friends. */
  lemma SendThenAcceptBefriends(t: Tables, a: UserId, b: UserId)
    requires SendStep(t, a, b).0.Sent?
    ensures var s := SendStep(t, a, b);
      var acc := AcceptStep(s.1, s.0.id, b);
      && acc.0 == AcceptedOk
      && (forall i :: 0 <= i < |acc.1.users| && acc.1.users[i].id == a ==> b in acc.1.users[i].friends)
      && (forall i :: 0 <= i < |acc.1.users| && acc.1.users[i].id == b ==> a in acc.1.users[i].friends)
  {
    var s := SendStep(t, a, b);
    AcceptLinks(s.1, s.0.id, b);
  }

  // ---------------------------------------------------------------------------
  // The store the endpoints update in place

  class Store {
    var users: seq<User>
    var requests: seq<FriendRequest>

    function Snapshot(): Tables
      reads this
    {
      Tables(users, requests)
    }

    ghost predicate Valid()
      reads this
    {
      Invariant(Snapshot())
    }

    /** A store seeded with registered users; no request exists yet. */
    constructor (registered: seq<User>)
      requires GraphInvariant(registered)
      ensures Valid() && users == registered && requests == []
    {
      users := registered;
      requests := [];
    }

    /** `sendFriendRequest` for the authenticated caller `me`. */
    method SendFriendRequest(me: UserId, recipientId: UserId) returns (r: SendResult)
      requires Valid()
      modifies this
      ensures Valid()
      ensures (r, Snapshot()) == SendStep(old(Snapshot()), me, recipientId)
    {
      SendPreservesInvariant(Snapshot(), me, recipientId);
      if me == recipientId {
        return SendRejected(SelfRequest);
      }
      var recipient := FindUser(users, recipientId);
      if recipient.None? {
        return SendRejected(RecipientNotFound);
      }
      if me in recipient.value.friends {
        return SendRejected(AlreadyFriends);
      }
      var existing := FindBetween(requests, me, recipientId);
      if existing.Some? {
        return SendRejected(AlreadyRequested);
      }
      var fr := FriendRequest(me, recipientId, Pending);
      r := Sent(|requests|, fr);
      requests := requests + [fr];
    }

    /** `acceptFriendRequest` for the authenticated caller: three writes in
        order (status, sender's list, recipient's list), none of them atomic
        with the others. */
    method AcceptFriendRequest(id: nat, caller: UserId) returns (r: AcceptResult)
      requires Valid()
      modifies this
      ensures Valid()
      ensures (r, Snapshot()) == AcceptStep(old(Snapshot()), id, caller)
    {
      AcceptPreservesInvariant(Snapshot(), id, caller);
      if id >= |requests| {
        return RequestNotFound;
      }
      var fr := requests[id];
      if fr.recipient != caller {
        return NotRecipient;
      }
      requests := requests[id := fr.(status := Accepted)];
      users := AddFriend(users, fr.sender, fr.recipient);
      users := AddFriend(users, fr.recipient, fr.sender);
      r := AcceptedOk;
    }
  }
}
