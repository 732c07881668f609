/** The call-signalling wire format: chat messages whose first attachment
    carries a call invitation or a call response. The chat page produces
    these messages (frontend/src/pages/ChatPage.jsx) and the message bubble
    classifies them (frontend/src/components/CustomMessage.jsx). */
module Messages {
  import opened Common

  const CallInvitationType := "call_invitation"
  const CallResponseType := "call_response"

  /** One attachment as JSON; every field but `type` may be missing. A missing
      `type` is the empty string, which equals neither tag. */
  datatype Attachment = Attachment(
    kind: string,
    callId: Option<string>,
    callerId: Option<string>,
    callerName: Option<string>,
    callerImage: Option<string>,
    receiverId: Option<string>,
    responderId: Option<string>,
    status: Option<string>)

  /** The author of a message, as the chat service reports it. */
  datatype Author = Author(id: string, name: Option<string>, image: Option<string>)

  /** A message as received; a missing attachment list is the empty one. */
  datatype Message = Message(id: string, text: Option<string>, attachments: seq<Attachment>, user: Option<Author>)

  /** What `channel.sendMessage` is given. */
  datatype Draft = Draft(text: string, attachments: seq<Attachment>)

  /** The invitation attachment `handleVideoCall` builds. */
  function InvitationAttachment(callId: string, callerId: string, callerName: string,
                                callerImage: string, receiverId: string): (a: Attachment)
    ensures a.kind == CallInvitationType && a.status == Some("pending")
    ensures a.callId == Some(callId) && a.callerId == Some(callerId) && a.receiverId == Some(receiverId)
    ensures a.callerName == Some(callerName) && a.callerImage == Some(callerImage)
  {
    Attachment(CallInvitationType, Some(callId), Some(callerId), Some(callerName),
               Some(callerImage), Some(receiverId), None, Some("pending"))
  }

  /** The response attachment the accept and decline handlers build. */
  function ResponseAttachment(callId: Option<string>, responderId: string, status: string): (a: Attachment)
    ensures a.kind == CallResponseType && a.callId == callId
    ensures a.responderId == Some(responderId) && a.status == Some(status)
  {
    Attachment(CallResponseType, callId, None, None, None, None, Some(responderId), Some(status))
  }

  /** A sent draft as the other members receive it: the service adds an id
      and the sender as author. */
  function Delivered(d: Draft, id: string, author: Author): (m: Message)
    ensures m.text == Some(d.text) && m.attachments == d.attachments && m.user == Some(author)
  {
    Message(id, Some(d.text), d.attachments, Some(author))
  }
}
