/** The chat message bubble of frontend/src/components/CustomMessage.jsx:
    a message renders as a call invitation, a call response or the default
    bubble, decided from its attachments and its text. */
module CustomMessage {
  import opened Common
  import opened Messages
  import opened ChatPage

  datatype Bubble =
    | DefaultBubble
    | InvitationBubble(callerName: string, callerImage: Option<string>)
    | ResponseBubble(responderName: string, responderImage: Option<string>, accepted: bool)

  function OfKind(kind: string): Attachment -> bool {
    (a: Attachment) => a.kind == kind
  }

  /** `attachments?.find((a) => a.type === kind)` */
  function FindKind(attachments: seq<Attachment>, kind: string): Option<Attachment> {
    Find(attachments, OfKind(kind))
  }

  ghost predicate HasKind(attachments: seq<Attachment>, kind: string) {
    exists a :: a in attachments && a.kind == kind
  }

  /** `message.text && message.text.includes("is calling you")` */
  predicate SaysCalling(text: Option<string>) {
    Truthy(text) && Contains(text.value, "is calling you")
  }

  /** `message.text && /Call accepted|Call declined/i.test(message.text)`; the
      pattern is ASCII, so case-insensitive matching is matching after ASCII
      lower-casing. */
  predicate SaysResponse(text: Option<string>) {
    Truthy(text) && (Contains(ToLower(text.value), "call accepted") || Contains(ToLower(text.value), "call declined"))
  }

  /** `message.text?.toLowerCase().includes("accepted")` */
  predicate MentionsAccepted(text: Option<string>) {
    text.Some? && Contains(ToLower(text.value), "accepted")
  }

  function AuthorName(m: Message): Option<string> {
    if m.user.Some? then m.user.value.name else None
  }

  function AuthorImage(m: Message): Option<string> {
    if m.user.Some? then m.user.value.image else None
  }

  /** The label under the responder's name. */
  function ResponseLabel(accepted: bool): string {
    if accepted then "Joined the Call" else "Declined the Call"
  }

  /** `CustomMessage`: the invitation test comes first, so a message that
      passes both tests is an invitation. */
  function Render(message: Option<Message>): (b: Bubble)
    ensures message.None? ==> b == DefaultBubble
    ensures b.InvitationBubble? <==>
      message.Some? && (HasKind(message.value.attachments, CallInvitationType) || SaysCalling(message.value.text))
    ensures b.ResponseBubble? <==>
      && message.Some?
      && !HasKind(message.value.attachments, CallInvitationType) && !SaysCalling(message.value.text)
      && (HasKind(message.value.attachments, CallResponseType) || SaysResponse(message.value.text))
    ensures b.InvitationBubble? ==> b.callerName != ""
    ensures b.ResponseBubble? ==> b.responderName != ""
    ensures b.InvitationBubble? ==>
      var inv := FindKind(message.value.attachments, CallInvitationType);
      var named := inv.Some? && Truthy(inv.value.callerName);
      && (named ==> b.callerName == inv.value.callerName.value)
      && (!named && Truthy(AuthorName(message.value)) ==> b.callerName == AuthorName(message.value).value)
      && (!named && !Truthy(AuthorName(message.value)) ==> b.callerName == "Unknown")
      && b.callerImage == OrElse(if inv.Some? then inv.value.callerImage else None, AuthorImage(message.value))
    ensures b.ResponseBubble? ==>
      && b.responderName == (if Truthy(AuthorName(message.value)) then AuthorName(message.value).value else "Someone")
      && b.responderImage == AuthorImage(message.value)
    ensures b.ResponseBubble? ==>
      var resp := FindKind(message.value.attachments, CallResponseType);
      b.accepted <==> (resp.Some? && resp.value.status == Some("accepted")) || MentionsAccepted(message.value.text)
  {
    if message.None? then DefaultBubble
    else
      var m := message.value;
      var invitation := FindKind(m.attachments, CallInvitationType);
      var response := FindKind(m.attachments, CallResponseType);
      if invitation.Some? || SaysCalling(m.text) then
        var name := OrElse(if invitation.Some? then invitation.value.callerName else None, AuthorName(m));
        var image := OrElse(if invitation.Some? then invitation.value.callerImage else None, AuthorImage(m));
        InvitationBubble(if Truthy(name) then name.value else "Unknown", image)
      else if response.Some? || SaysResponse(m.text) then
        var accepted := (response.Some? && response.value.status == Some("accepted")) || MentionsAccepted(m.text);
        var name := AuthorName(m);
        ResponseBubble(if Truthy(name) then name.value else "Someone", AuthorImage(m), accepted)
      else DefaultBubble
  }

  /** The invitation the chat page sends renders as an invitation bubble
      with the caller's name and picture. */
  lemma InvitationRendersAsInvitation(me: AuthUser, target: string, id: string, author: Author)
    ensures var b := Render(Some(Delivered(InvitationDraft(me, target), id, author)));
      && b.InvitationBubble?
      && (me.fullName != "" ==> b.callerName == me.fullName)
      && (me.profilePic != "" ==> b.callerImage == Some(me.profilePic))
  {
    var m := Delivered(InvitationDraft(me, target), id, author);
    assert OfKind(CallInvitationType)(m.attachments[0]);
  }

  /** How the bubble reads the two texts the chat page sends with a
      response. */
  lemma AcceptedTextReadsAsAcceptance()
    ensures SaysResponse(Some("Call accepted")) && MentionsAccepted(Some("Call accepted"))
    ensures !SaysCalling(Some("Call accepted"))
  {
    var lower := ToLower("Call accepted");
    assert lower == "call accepted";
    ContainsPrefix(lower, "call accepted", []);
    ContainsAt(lower, "accepted", 5);
    MissingCharNotContained("Call accepted", "is calling you", 'y');
  }

  lemma DeclinedTextReadsAsRefusal()
    ensures SaysResponse(Some("Call declined")) && !MentionsAccepted(Some("Call declined"))
    ensures !SaysCalling(Some("Call declined"))
  {
    var lower := ToLower("Call declined");
    assert lower == "call declined";
    ContainsPrefix(lower, "call declined", []);
    MissingCharNotContained(lower, "accepted", 'p');
    MissingCharNotContained("Call declined", "is calling you", 'y');
  }

  /** A response the chat page sends renders as a response bubble that is
      accepted exactly when the answer was an acceptance, and is labelled
      accordingly. */
  lemma ResponseRendersAsResponse(call: IncomingCall, me: AuthUser, accepted: bool, id: string, author: Author)
    ensures var b := Render(Some(Delivered(ResponseDraft(call, me, accepted), id, author)));
      && b.ResponseBubble?
      && b.accepted == accepted
      && ResponseLabel(b.accepted) == (if accepted then "Joined the Call" else "Declined the Call")
  {
    var d := ResponseDraft(call, me, accepted);
    var m := Delivered(d, id, author);
    assert OfKind(CallResponseType)(m.attachments[0]);
    assert !HasKind(m.attachments, CallInvitationType);
    if accepted {
      AcceptedTextReadsAsAcceptance();
    } else {
      DeclinedTextReadsAsRefusal();
    }
  }
}
