/** Call signalling over chat (frontend/src/pages/ChatPage.jsx): the shared
    channel/call id, the test that turns an inbound message into an incoming
    call, and the page's handlers, which send invitation and response
    messages, record `incomingCall` and navigate. The chat service is
    abstract: whether a connect, watch or send succeeds is a parameter, and
    navigation is the recorded target path. */
module ChatPage {
  import opened Common
  import opened Messages

  /** `a < b` on strings as JavaScript compares them, character by
      character, a proper prefix first. */
  predicate Before(a: string, b: string)
    decreases |a|
  {
    if a == [] then b != []
    else if b == [] then false
    else a[0] < b[0] || (a[0] == b[0] && Before(a[1..], b[1..]))
  }

  lemma {:induction false} BeforeAsymmetric(a: string, b: string)
    ensures Before(a, b) ==> !Before(b, a)
    decreases |a|
  {
    if a != [] && b != [] && a[0] == b[0] {
      BeforeAsymmetric(a[1..], b[1..]);
    }
  }

  lemma {:induction false} BeforeTotal(a: string, b: string)
    ensures a == b || Before(a, b) || Before(b, a)
    decreases |a|
  {
    if a != [] && b != [] && a[0] == b[0] {
      BeforeTotal(a[1..], b[1..]);
      if a[1..] == b[1..] {
        assert a == [a[0]] + a[1..] && b == [b[0]] + b[1..];
      }
    }
  }

  /** `[me, other].sort().join("-")`: the channel id, and the call id built
      the same way when a call starts. */
  function ChannelId(me: string, other: string): string {
    if Before(other, me) then other + "-" + me else me + "-" + other
  }

  /** Both users compute the same id, which joins the two ids in order. */
  lemma ChannelIdSymmetric(a: string, b: string)
    ensures ChannelId(a, b) == ChannelId(b, a)
    ensures ChannelId(a, b) == a + "-" + b || ChannelId(a, b) == b + "-" + a
  {
    BeforeAsymmetric(a, b);
    BeforeTotal(a, b);
  }

  /** The signed-in user as the page sees it. */
  datatype AuthUser = AuthUser(id: string, fullName: string, profilePic: string)

  /** What `setIncomingCall` records; `channel` is the id of the channel the
      invitation arrived on. */
  datatype IncomingCall = IncomingCall(
    callId: Option<string>,
    callerName: Option<string>,
    callerImage: Option<string>,
    messageId: string,
    channel: string)

  /** A message sent on a channel. */
  datatype Outgoing = Outgoing(channel: string, draft: Draft)

  /** The `message.new` test: only the first attachment is looked at; it must
      be an invitation addressed to `me` and not sent by `me`. */
  predicate PromptsCall(m: Message, me: string) {
    && |m.attachments| > 0
    && m.attachments[0].kind == CallInvitationType
    && m.attachments[0].receiverId == Some(me)
    && m.attachments[0].callerId != Some(me)
  }

  function IncomingFrom(m: Message, channel: string): (c: IncomingCall)
    requires |m.attachments| > 0
    ensures c.callId == m.attachments[0].callId && c.messageId == m.id && c.channel == channel
    ensures c.callerName == m.attachments[0].callerName && c.callerImage == m.attachments[0].callerImage
  {
    var a := m.attachments[0];
    IncomingCall(a.callId, a.callerName, a.callerImage, m.id, channel)
  }

  /** The message `handleVideoCall` sends. */
  function InvitationDraft(me: AuthUser, target: string): Draft {
    Draft(me.fullName + " is calling you...",
          [InvitationAttachment(ChannelId(me.id, target), me.id, me.fullName, me.profilePic, target)])
  }

  /** The message the accept (or decline) handler sends. */
  function ResponseDraft(call: IncomingCall, me: AuthUser, accepted: bool): Draft {
    Draft(if accepted then "Call accepted" else "Call declined",
          [ResponseAttachment(call.callId, me.id, if accepted then "accepted" else "declined")])
  }

  /** An invitation prompts the callee, and never the caller when its own
      message comes back on the channel. */
  lemma InvitationPromptsOnlyCallee(me: AuthUser, target: string, id: string, author: Author)
    requires me.id != target
    ensures var m := Delivered(InvitationDraft(me, target), id, author);
      && PromptsCall(m, target)
      && !PromptsCall(m, me.id)
      && IncomingFrom(m, ChannelId(target, me.id)).callId == Some(ChannelId(target, me.id))
  {
    ChannelIdSymmetric(me.id, target);
  }

  /** `StreamChat.getInstance`: the process-wide chat client. */
  class ChatClient {
    /** `client.user?.id` */
    var user: Option<string>
    /** How many times `connectUser` has been called. */
    var connectCalls: nat
    /** The number of `message.new` handlers on each channel (by id). */
    var newMessageHandlers: map<string, nat>

    constructor ()
      ensures user == None && connectCalls == 0 && newMessageHandlers == map[]
    {
      user := None;
      connectCalls := 0;
      newMessageHandlers := map[];
    }
  }

  ghost predicate AtMostOneHandler(handlers: map<string, nat>) {
    forall c :: c in handlers ==> handlers[c] <= 1
  }

  /** The state of one chat page: with `target` as the peer. */
  class ChatScreen {
    const me: AuthUser
    const target: string
    const client: ChatClient
    /** `chatClient` state: set once the channel is watched. */
    var chatClient: ChatClient?
    /** `channel` state: the id of the watched channel. */
    var channel: Option<string>
    var loading: bool
    var incomingCall: Option<IncomingCall>
    /** Every message this page has sent. */
    var outbox: seq<Outgoing>
    /** The last path navigated to. */
    var navigation: Option<string>

    constructor (me: AuthUser, target: string, client: ChatClient)
      ensures this.me == me && this.target == target && this.client == client
      ensures chatClient == null && channel == None && loading && incomingCall == None
      ensures outbox == [] && navigation == None
    {
      this.me := me;
      this.target := target;
      this.client := client;
      chatClient := null;
      channel := None;
      loading := true;
      incomingCall := None;
      outbox := [];
      navigation := None;
    }

    /** `initChat`: connect unless the client already holds this user, watch
        the shared channel, swap its `message.new` handler, then publish
        client and channel. A missing token returns before anything, without
        even clearing `loading`. */
    method InitChat(token: Option<string>, connectOk: bool, watchOk: bool)
      modifies this, client
      ensures !Truthy(token) ==> unchanged(this, client)
      ensures Truthy(token) ==> !loading
      ensures Truthy(token) ==>
        client.connectCalls == old(client.connectCalls) + if old(client.user) == Some(me.id) then 0 else 1
      ensures Truthy(token) ==>
        client.user == if old(client.user) != Some(me.id) && connectOk then Some(me.id) else old(client.user)
      ensures var ok := Truthy(token) && (old(client.user) == Some(me.id) || connectOk) && watchOk;
        && (ok ==> chatClient == client && channel == Some(ChannelId(me.id, target)))
        && (ok ==> client.newMessageHandlers == old(client.newMessageHandlers)[ChannelId(me.id, target) := 1])
        && (!ok ==> chatClient == old(chatClient) && channel == old(channel))
        && (!ok ==> client.newMessageHandlers == old(client.newMessageHandlers))
      ensures AtMostOneHandler(old(client.newMessageHandlers)) ==> AtMostOneHandler(client.newMessageHandlers)
      ensures incomingCall == old(incomingCall) && outbox == old(outbox) && navigation == old(navigation)
    {
      if !Truthy(token) {
        return;
      }
      if client.user != Some(me.id) {
        client.connectCalls := client.connectCalls + 1;
        if !connectOk {
          loading := false;
          return;
        }
        client.user := Some(me.id);
      }
      var channelId := ChannelId(me.id, target);
      if !watchOk {
        loading := false;
        return;
      }
      client.newMessageHandlers := client.newMessageHandlers[channelId := 0];
      client.newMessageHandlers := client.newMessageHandlers[channelId := client.newMessageHandlers[channelId] + 1];
      chatClient := client;
      channel := Some(channelId);
      loading := false;
    }

    /** The effect's cleanup: it sees the `channel` of the render that set
        the effect up (`captured`), which is still null on the first run. */
    method ReleaseHandler(captured: Option<string>)
      modifies client
      ensures captured.None? ==> client.newMessageHandlers == old(client.newMessageHandlers)
      ensures captured.Some? ==> client.newMessageHandlers == old(client.newMessageHandlers)[captured.value := 0]
      ensures client.user == old(client.user) && client.connectCalls == old(client.connectCalls)
      ensures AtMostOneHandler(old(client.newMessageHandlers)) ==> AtMostOneHandler(client.newMessageHandlers)
    {
      if captured.Some? {
        client.newMessageHandlers := client.newMessageHandlers[captured.value := 0];
      }
    }

    /** The `message.new` handler attached to channel `on`. */
    method OnMessageNew(event: Option<Message>, on: string)
      modifies this`incomingCall
      ensures event.Some? && PromptsCall(event.value, me.id) ==> incomingCall == Some(IncomingFrom(event.value, on))
      ensures !(event.Some? && PromptsCall(event.value, me.id)) ==> incomingCall == old(incomingCall)
    {
      if event.Some? && |event.value.attachments| > 0 {
        var attachment := event.value.attachments[0];
        if attachment.kind == CallInvitationType {
          if attachment.receiverId == Some(me.id) && attachment.callerId != Some(me.id) {
            incomingCall := Some(IncomingFrom(event.value, on));
          }
        }
      }
    }

    /** `handleVideoCall`: without a channel nothing happens; otherwise one
        invitation is sent and, only once it is sent, the page goes to the
        call. */
    method HandleVideoCall(sendOk: bool)
      modifies this`outbox, this`navigation
      ensures channel.Some? && sendOk ==>
        && outbox == old(outbox) + [Outgoing(channel.value, InvitationDraft(me, target))]
        && navigation == Some("/call/" + ChannelId(me.id, target))
      ensures !(channel.Some? && sendOk) ==> outbox == old(outbox) && navigation == old(navigation)
    {
      if channel.Some? {
        var callId := ChannelId(me.id, target);
        if sendOk {
          outbox := outbox + [Outgoing(channel.value, InvitationDraft(me, target))];
          navigation := Some("/call/" + callId);
        }
      }
    }

    /** `handleAcceptCall`: answer on the invitation's channel, go to the
        call, then forget the invitation; a failed send changes nothing. */
    method HandleAcceptCall(sendOk: bool)
      modifies this`outbox, this`navigation, this`incomingCall
      ensures var c := old(incomingCall);
        && (c.Some? && sendOk ==> outbox == old(outbox) + [Outgoing(c.value.channel, ResponseDraft(c.value, me, true))])
        && (c.Some? && sendOk ==> navigation == Some("/call/" + Interpolate(c.value.callId)))
        && (c.Some? && sendOk ==> incomingCall == None)
        && (!(c.Some? && sendOk) ==> outbox == old(outbox) && navigation == old(navigation) && incomingCall == c)
    {
      if incomingCall.Some? {
        var call := incomingCall.value;
        if sendOk {
          outbox := outbox + [Outgoing(call.channel, ResponseDraft(call, me, true))];
          navigation := Some("/call/" + Interpolate(call.callId));
          incomingCall := None;
        }
      }
    }

    /** `handleDeclineCall`: answer and forget the invitation; never navigates. */
    method HandleDeclineCall(sendOk: bool)
      modifies this`outbox, this`incomingCall
      ensures var c := old(incomingCall);
        && (c.Some? && sendOk ==> outbox == old(outbox) + [Outgoing(c.value.channel, ResponseDraft(c.value, me, false))])
        && (c.Some? && sendOk ==> incomingCall == None)
        && (!(c.Some? && sendOk) ==> outbox == old(outbox) && incomingCall == c)
    {
      if incomingCall.Some? {
        var call := incomingCall.value;
        if sendOk {
          outbox := outbox + [Outgoing(call.channel, ResponseDraft(call, me, false))];
          incomingCall := None;
        }
      }
    }
  }
}
