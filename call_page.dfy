/** The call-session manager of frontend/src/pages/CallPage.jsx.

    The page keeps two process-wide handles (the video client and the call
    instance), reuses them when they belong to the same user and call, guards
    its initialisation with a single-shot flag, swaps its three call event
    handlers, and on cleanup stops every local media track and releases both
    handles. The video service is abstract: its client, call and track
    objects are small classes, and whether `disconnectUser`, `leave` or
    `join` succeeds is a parameter. */
module CallPage {
  import opened Common
  import opened ChatPage

  // ---------------------------------------------------------------------------
  // The peer's id, recovered from the call id

  /** `s.split(sep)` for a one-character separator. */
  function Split(s: string, sep: char): (r: seq<string>)
    ensures |r| >= 1
    decreases |s|
  {
    if s == [] then [""]
    else
      var rest := Split(s[1..], sep);
      if s[0] == sep then [""] + rest else [[s[0]] + rest[0]] + rest[1..]
  }

  /** `parts.join(sep)`, the inverse of `Split`. */
  function Join(parts: seq<string>, sep: char): string
    decreases |parts|
  {
    if parts == [] then ""
    else if |parts| == 1 then parts[0]
    else parts[0] + [sep] + Join(parts[1..], sep)
  }

  lemma {:induction false} JoinSplit(s: string, sep: char)
    ensures Join(Split(s, sep), sep) == s
    decreases |s|
  {
    if s != [] {
      var rest := Split(s[1..], sep);
      JoinSplit(s[1..], sep);
      if s[0] == sep {
        assert Split(s, sep) == [""] + rest;
        assert s == [sep] + s[1..];
      } else {
        assert Split(s, sep)[1..] == rest[1..];
        assert rest == [rest[0]] + rest[1..];
        assert s == [s[0]] + s[1..];
      }
    }
  }

  lemma {:induction false} SplitWithoutSeparator(a: string, sep: char)
    requires sep !in a
    ensures Split(a, sep) == [a]
    decreases |a|
  {
    if a != [] {
      SplitWithoutSeparator(a[1..], sep);
      assert [a[0]] + a[1..] == a;
    }
  }

  lemma {:induction false} SplitAtFirstSeparator(a: string, b: string, sep: char)
    requires sep !in a
    ensures Split(a + [sep] + b, sep) == [a] + Split(b, sep)
    decreases |a|
  {
    var s := a + [sep] + b;
    if a == [] {
      assert s[1..] == b;
    } else {
      assert s[1..] == a[1..] + [sep] + b;
      SplitAtFirstSeparator(a[1..], b, sep);
      assert [a[0]] + a[1..] == a;
    }
  }

  /** `(id) => id !== authUser?._id` */
  function NotMe(me: Option<string>): string -> bool {
    (id: string) => Some(id) != me
  }

  /** `targetUserId`: the first dash-separated part of the call id that is
      not my id; with no signed-in user every part differs. */
  function TargetOf(callId: string, authUser: Option<AuthUser>): Option<string> {
    Find(Split(callId, '-'), NotMe(if authUser.Some? then Some(authUser.value.id) else None))
  }

  /** For a call id built from two distinct dash-free ids, each side recovers
      the other's id. */
  lemma TargetIsPeer(a: string, b: string, me: AuthUser)
    requires '-' !in a && '-' !in b && a != b
    requires me.id == a
    ensures TargetOf(ChannelId(a, b), Some(me)) == Some(b)
  {
    ChannelIdSymmetric(a, b);
    var notMe := NotMe(Some(a));
    assert !notMe(a) && notMe(b);
    SplitWithoutSeparator(a, '-');
    SplitWithoutSeparator(b, '-');
    if ChannelId(a, b) == a + "-" + b {
      SplitAtFirstSeparator(a, b, '-');
      assert Split(ChannelId(a, b), '-') == [a, b];
      assert [a, b][1..] == [b];
      assert Find([b], notMe) == Some(b);
    } else {
      SplitAtFirstSeparator(b, a, '-');
      assert Split(ChannelId(a, b), '-') == [b, a];
    }
  }

  // ---------------------------------------------------------------------------
  // The video service's objects

  class Track {
    var live: bool

    constructor ()
      ensures live
    {
      live := true;
    }

    /** `track.stop()` */
    method Stop()
      modifies this
      ensures !live
    {
      live := false;
    }
  }

  /** The local participant's streams; either may be missing. */
  datatype Participant = Participant(videoStream: Option<seq<Track>>, audioStream: Option<seq<Track>>)

  /** `stream?.getTracks() || []` */
  function TracksOf(stream: Option<seq<Track>>): seq<Track> {
    if stream.Some? then stream.value else []
  }

  function LocalTracks(p: Option<Participant>): set<Track> {
    if p.None? then {}
    else (set t | t in TracksOf(p.value.videoStream)) + (set t | t in TracksOf(p.value.audioStream))
  }

  /** `tracks.forEach((track) => track.stop())` */
  method StopAll(tracks: seq<Track>)
    modifies set t | t in tracks
    ensures forall t :: t in tracks ==> !t.live
  {
    var i := 0;
    while i < |tracks|
      invariant 0 <= i <= |tracks|
      invariant forall j :: 0 <= j < i ==> !tracks[j].live
    {
      tracks[i].Stop();
      i := i + 1;
    }
  }

  class VideoClient {
    /** `client.user?.id`, cleared by `disconnectUser` */
    var userId: Option<string>

    constructor (id: string)
      ensures userId == Some(id)
    {
      userId := Some(id);
    }
  }

  const CallEnded := "call.ended"
  const CallRejected := "call.rejected"
  const CallJoined := "call.joined"

  class VideoCall {
    const id: string
    /** The client that created it with `client.call("default", id)`. */
    const owner: VideoClient
    const localParticipant: Option<Participant>
    /** The number of handlers registered per event name. */
    var handlers: map<string, nat>
    var joined: bool

    constructor (id: string, owner: VideoClient, local: Option<Participant>)
      ensures this.id == id && this.owner == owner && localParticipant == local
      ensures handlers == map[] && !joined
    {
      this.id := id;
      this.owner := owner;
      localParticipant := local;
      handlers := map[];
      joined := false;
    }
  }

  /** Exactly one handler for each of the three call events. */
  predicate OneHandlerEach(handlers: map<string, nat>) {
    && CallEnded in handlers && handlers[CallEnded] == 1
    && CallRejected in handlers && handlers[CallRejected] == 1
    && CallJoined in handlers && handlers[CallJoined] == 1
  }

  function CallTracks(c: VideoCall?): set<Track> {
    if c == null then {} else LocalTracks(c.localParticipant)
  }

  /** `globalVideoClient` and `globalCallInstance`, shared by every call page. */
  class Handles {
    var client: VideoClient?
    var call: VideoCall?

    constructor ()
      ensures client == null && call == null
    {
      client := null;
      call := null;
    }
  }

  /** Whether the two fallible steps of a cleanup succeed; an exception in
      one skips every later step. */
  datatype Teardown = Teardown(leaveOk: bool, disconnectOk: bool)

  // ---------------------------------------------------------------------------
  // One call page

  class CallSession {
    const callId: string
    const authUser: Option<AuthUser>
    const globals: Handles
    /** `isInitializedRef.current` */
    var initialized: bool
    /** The `client` and `call` state, set only after a successful join. */
    var client: VideoClient?
    var call: VideoCall?
    var connecting: bool
    var callDeclined: bool
    /** Pending `setTimeout` callbacks, each a cleanup followed by navigation
        to the path it holds. */
    var timers: seq<string>
    /** The last path navigated to. */
    var navigation: Option<string>

    constructor (callId: string, authUser: Option<AuthUser>, globals: Handles)
      ensures this.callId == callId && this.authUser == authUser && this.globals == globals
      ensures !initialized && client == null && call == null && connecting && !callDeclined
      ensures timers == [] && navigation == None
    {
      this.callId := callId;
      this.authUser := authUser;
      this.globals := globals;
      initialized := false;
      client := null;
      call := null;
      connecting := true;
      callDeclined := false;
      timers := [];
      navigation := None;
    }

    /** Where every exit from the call goes: `/chat/${targetUserId}`. */
    function ChatPath(): string {
      "/chat/" + Interpolate(TargetOf(callId, authUser))
    }

    /** The guard of `initCall`: token, user id, full name and call id must be
        truthy, and the page not yet initialised. */
    predicate CanInit(token: Option<string>)
      reads this
    {
      Truthy(token) && authUser.Some? && authUser.value.id != "" && authUser.value.fullName != ""
        && callId != "" && !initialized
    }

    /** `cleanupCall`: stop every local track of the current call, leave it
        and drop it, disconnect and drop the client if it has a user, and
        clear the flag; an exception skips the steps after it. */
    method Cleanup(t: Teardown)
      modifies this`initialized, globals, globals.call, globals.client, CallTracks(globals.call)
      ensures forall tr :: tr in CallTracks(old(globals.call)) ==> !tr.live
      ensures var c, k := old(globals.call), old(globals.client);
        var left := c == null || t.leaveOk;
        var hasUser := k != null && Truthy(old(k.userId));
        var dropped := left && hasUser && t.disconnectOk;
        && (c != null && t.leaveOk ==> !c.joined && c.handlers == old(c.handlers))
        && globals.call == (if left then null else c)
        && globals.client == (if dropped then null else k)
        && (k != null ==> k.userId == if dropped then None else old(k.userId))
        && initialized == if left && (!hasUser || t.disconnectOk) then false else old(initialized)
    {
      if globals.call != null {
        var c := globals.call;
        if c.localParticipant.Some? {
          StopAll(TracksOf(c.localParticipant.value.videoStream));
          StopAll(TracksOf(c.localParticipant.value.audioStream));
        }
        if !t.leaveOk {
          return;
        }
        c.joined := false;
        globals.call := null;
      }
      if globals.client != null && Truthy(globals.client.userId) {
        if !t.disconnectOk {
          return;
        }
        globals.client.userId := None;
        globals.client := null;
      }
      initialized := false;
    }

    /** Keep the global client if it is mine; otherwise disconnect it (errors
        swallowed) and create one for me. */
    method AcquireClient(me: string, disconnectOk: bool)
      modifies globals, globals.client
      ensures globals.call == old(globals.call)
      ensures globals.client != null && globals.client.userId == Some(me)
      ensures var k := old(globals.client);
        var reuse := k != null && old(k.userId) == Some(me);
        && (reuse ==> globals.client == k)
        && (!reuse ==> fresh(globals.client))
        && (k != null && !reuse ==> k.userId == if disconnectOk then None else old(k.userId))
    {
      if globals.client == null || globals.client.userId != Some(me) {
        if globals.client != null && disconnectOk {
          globals.client.userId := None;
        }
        globals.client := new VideoClient(me);
      }
    }

    /** Keep the global call if it has this call id; otherwise leave it
        (errors swallowed) and have the global client create a new one. */
    method AcquireCall(leaveOk: bool, local: Option<Participant>)
      requires globals.client != null
      modifies globals, globals.call
      ensures globals.client == old(globals.client)
      ensures globals.call != null && globals.call.id == callId
      ensures var c := old(globals.call);
        var reuse := c != null && c.id == callId;
        && (reuse ==> globals.call == c && c.handlers == old(c.handlers) && c.joined == old(c.joined))
        && (!reuse ==> fresh(globals.call) && globals.call.owner == globals.client)
        && (!reuse ==> globals.call.localParticipant == local && globals.call.handlers == map[] && !globals.call.joined)
        && (c != null && !reuse ==> c.joined == if leaveOk then false else old(c.joined))
    {
      if globals.call == null || globals.call.id != callId {
        if globals.call != null && leaveOk {
          globals.call.joined := false;
        }
        globals.call := new VideoCall(callId, globals.client, local);
      }
    }

    /** `off` then `on` for each of the three call events. */
    method RebindHandlers()
      requires globals.call != null
      modifies globals.call
      ensures globals.call.handlers == old(globals.call.handlers)[CallEnded := 1][CallRejected := 1][CallJoined := 1]
      ensures OneHandlerEach(globals.call.handlers)
      ensures globals.call.joined == old(globals.call.joined)
    {
      var c := globals.call;
      c.handlers := c.handlers[CallEnded := 0];
      c.handlers := c.handlers[CallRejected := 0];
      c.handlers := c.handlers[CallJoined := 0];
      c.handlers := c.handlers[CallEnded := c.handlers[CallEnded] + 1];
      c.handlers := c.handlers[CallRejected := c.handlers[CallRejected] + 1];
      c.handlers := c.handlers[CallJoined := c.handlers[CallJoined] + 1];
    }

    /** The part of `initCall` between the guard and the join: both handles
        acquired, the event handlers swapped. */
    method Prepare(me: string, disconnectPreviousOk: bool, leavePreviousOk: bool, local: Option<Participant>)
      modifies globals, globals.client, globals.call
      ensures globals.client != null && globals.client.userId == Some(me)
      ensures globals.call != null && globals.call.id == callId
      ensures OneHandlerEach(globals.call.handlers)
      ensures var k, c := old(globals.client), old(globals.call);
        && (k != null && old(k.userId) == Some(me) ==> globals.client == k)
        && (!(k != null && old(k.userId) == Some(me)) ==> fresh(globals.client))
        && (c != null && c.id == callId ==> globals.call == c && c.joined == old(c.joined))
        && (!(c != null && c.id == callId) ==> fresh(globals.call) && globals.call.localParticipant == local)
        && (!(c != null && c.id == callId) ==> !globals.call.joined && globals.call.owner == globals.client)
    {
      AcquireClient(me, disconnectPreviousOk);
      AcquireCall(leavePreviousOk, local);
      RebindHandlers();
    }

    /** `initCall`. `local` is the local participant a newly created call
        gets; `onFailure` is how the cleanup after a failed join goes. */
    method InitCall(token: Option<string>, local: Option<Participant>, disconnectPreviousOk: bool,
                    leavePreviousOk: bool, joinOk: bool, onFailure: Teardown)
      modifies this, globals, globals.client, globals.call, CallTracks(globals.call), LocalTracks(local)
      ensures !old(CanInit(token)) ==> unchanged(this, globals)
      ensures !old(CanInit(token)) && old(globals.client) != null ==> unchanged(old(globals.client))
      ensures !old(CanInit(token)) && old(globals.call) != null ==> unchanged(old(globals.call))
      ensures old(CanInit(token)) ==> !connecting && callDeclined == old(callDeclined) && timers == old(timers)
      ensures old(CanInit(token)) && joinOk ==>
        && initialized
        && client == globals.client && call == globals.call && navigation == old(navigation)
        && globals.client != null && globals.client.userId == Some(authUser.value.id)
        && globals.call != null && globals.call.id == callId && globals.call.joined
        && OneHandlerEach(globals.call.handlers)
      ensures old(CanInit(token)) && joinOk ==>
        var k, c := old(globals.client), old(globals.call);
        && (k != null && old(k.userId) == Some(authUser.value.id) ==> globals.client == k)
        && (c != null && c.id == callId ==> globals.call == c)
        && (!(c != null && c.id == callId) ==> fresh(globals.call) && globals.call.localParticipant == local)
      ensures old(CanInit(token)) && !joinOk ==>
        && client == old(client) && call == old(call)
        && navigation == Some(ChatPath())
        && (onFailure.leaveOk ==> globals.call == null)
        && (onFailure.leaveOk && onFailure.disconnectOk ==> globals.client == null && !initialized)
    {
      if !CanInit(token) {
        return;
      }
      initialized := true;
      Prepare(authUser.value.id, disconnectPreviousOk, leavePreviousOk, local);
      if !joinOk {
        Cleanup(onFailure);
        navigation := Some(ChatPath());
        connecting := false;
        return;
      }
      globals.call.joined := true;
      client := globals.client;
      call := globals.call;
      connecting := false;
    }

    /** The `call.ended` handler: clean up and leave the call screen at once. */
    method OnCallEnded(t: Teardown)
      modifies this`initialized, this`navigation, globals, globals.call, globals.client, CallTracks(globals.call)
      ensures forall tr :: tr in CallTracks(old(globals.call)) ==> !tr.live
      ensures t.leaveOk ==> globals.call == null
      ensures t.leaveOk && t.disconnectOk ==>
        !initialized && (globals.client == null || !Truthy(globals.client.userId))
      ensures navigation == Some(ChatPath())
    {
      Cleanup(t);
      navigation := Some(ChatPath());
    }

    /** The `call.rejected` handler: show the declined notice and defer the
        cleanup and navigation by 2000 ms. */
    method OnCallRejected()
      modifies this`callDeclined, this`timers
      ensures callDeclined && timers == old(timers) + [ChatPath()]
    {
      callDeclined := true;
      timers := timers + [ChatPath()];
    }

    /** The earliest pending timer fires: cleanup, then navigation. */
    method FireTimer(t: Teardown)
      modifies this`initialized, this`navigation, this`timers, globals, globals.call, globals.client, CallTracks(globals.call)
      ensures old(timers) == [] ==> timers == [] && navigation == old(navigation) && globals.call == old(globals.call)
      ensures old(timers) != [] ==> timers == old(timers)[1..] && navigation == Some(old(timers)[0])
      ensures old(timers) != [] ==> forall tr :: tr in CallTracks(old(globals.call)) ==> !tr.live
      ensures old(timers) != [] && t.leaveOk ==> globals.call == null
    {
      if timers != [] {
        var path := timers[0];
        timers := timers[1..];
        Cleanup(t);
        navigation := Some(path);
      }
    }
  }
}
