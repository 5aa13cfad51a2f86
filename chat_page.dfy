/**
 * The chat page without its transport: the join guard, the connection guard,
 * the message log, the JOIN announcement and how an outgoing message and its
 * destination are chosen.
 */
module ChatPage {
  import opened Wrappers
  import JsText

  datatype MessageType = Join | Chat | Leave | Private

  /** The wire name of a message type. */
  function TypeName(t: MessageType): string {
    match t
    case Join => "JOIN"
    case Chat => "CHAT"
    case Leave => "LEAVE"
    case Private => "PRIVATE"
  }

  /** A chat message; the JOIN announcement has no content and most messages no recipient. */
  datatype ChatMessage = ChatMessage(sender: string, content: Option<string>, kind: MessageType, recipient: Option<string>)

  /** A message handed to the client for one destination. */
  datatype Outgoing = Outgoing(destination: string, message: ChatMessage)

  /** The client set once the connection callback has run. */
  datatype Client = Client(connected: bool)

  const PublicDestination := "/app/chat.sendMessage"
  const PrivatePrefix := "/app/chat.privateMessage/"
  const JoinDestination := "/app/chat.addUser"

  /**
   * The message `sendMessage` builds and where it goes: private, to the
   * recipient's own destination, iff a recipient is given.
   */
  function Compose(username: string, input: string, recipient: string): (o: Outgoing)
    ensures o.message.sender == username && o.message.content == Some(input)
    ensures o.message.kind == (if recipient != "" then Private else Chat)
    ensures o.message.recipient == (if recipient != "" then Some(recipient) else None)
    ensures recipient != "" ==> o.destination == PrivatePrefix + recipient
    ensures recipient == "" ==> o.destination == PublicDestination
  {
    if recipient != "" then
      Outgoing(PrivatePrefix + recipient, ChatMessage(username, Some(input), Private, Some(recipient)))
    else
      Outgoing(PublicDestination, ChatMessage(username, Some(input), Chat, None))
  }

  /** Whom a destination addresses: the suffix of a private destination, nobody for the public one. */
  function RecipientOf(destination: string): (r: Option<string>)
    ensures r.Some? ==> PrivatePrefix + r.value == destination
  {
    if |PrivatePrefix| <= |destination| && destination[..|PrivatePrefix|] == PrivatePrefix then
      Some(destination[|PrivatePrefix|..])
    else None
  }

  /** The destination and the message agree on the recipient, and the type says which kind it is. */
  lemma DestinationAgrees(username: string, input: string, recipient: string)
    ensures RecipientOf(Compose(username, input, recipient).destination) == Compose(username, input, recipient).message.recipient
    ensures Compose(username, input, recipient).message.kind == Private <==> RecipientOf(Compose(username, input, recipient).destination).Some?
  {
    var o := Compose(username, input, recipient);
    if recipient != "" {
      assert o.destination[..|PrivatePrefix|] == PrivatePrefix;
      assert o.destination[|PrivatePrefix|..] == recipient;
    } else {
      assert PublicDestination[10] != PrivatePrefix[10];
    }
  }

  /** The announcement sent once connected. */
  function JoinMessage(username: string): ChatMessage {
    ChatMessage(username, None, Join, None)
  }

  /** A message is drawn as the user's own iff its sender is the user's name. */
  predicate IsOwn(m: ChatMessage, username: string) {
    m.sender == username
  }

  /** Different message types are labelled differently. */
  lemma TypeNameInjective(s: MessageType, t: MessageType)
    ensures TypeName(s) == TypeName(t) ==> s == t
  {
  }

  class Room {
    var client: Option<Client>
    var messages: seq<ChatMessage>
    var messageInput: string
    var recipient: string
    var username: string
    var tempUsername: string
    var isChatConnected: bool

    constructor ()
      ensures client == None && messages == [] && messageInput == "" && recipient == ""
      ensures username == "" && tempUsername == "" && !isChatConnected
    {
      client := None;
      messages := [];
      messageInput := "";
      recipient := "";
      username := "";
      tempUsername := "";
      isChatConnected := false;
    }

    /** The connection effect does anything only once joined under a non-empty name. */
    predicate ShouldConnect()
      reads this`isChatConnected, this`username
    {
      isChatConnected && username != ""
    }

    method SetTempUsername(s: string)
      modifies this`tempUsername
      ensures tempUsername == s
    {
      tempUsername := s;
    }

    /** `handleJoinChat`: a name that is not blank is trimmed, taken and connected. */
    method HandleJoinChat()
      modifies this`username, this`isChatConnected
      ensures JsText.Trim(tempUsername) != "" ==> username == JsText.Trim(tempUsername) && isChatConnected
      ensures JsText.Trim(tempUsername) != "" ==> ShouldConnect()
      ensures JsText.Trim(tempUsername) == "" ==> username == old(username) && isChatConnected == old(isChatConnected)
    {
      var name := JsText.Trim(tempUsername);
      if name != "" {
        username := name;
        isChatConnected := true;
      }
    }

    /** The connection callback: keep the client and announce the user. */
    method OnConnected(c: Client) returns (join: Outgoing)
      requires ShouldConnect()
      modifies this`client
      ensures client == Some(c)
      ensures join == Outgoing(JoinDestination, JoinMessage(username))
    {
      client := Some(c);
      join := Outgoing(JoinDestination, JoinMessage(username));
    }

    /** A message from either subscription goes at the end of the log. */
    method OnMessage(m: ChatMessage)
      modifies this`messages
      ensures messages == old(messages) + [m]
      ensures |messages| == |old(messages)| + 1 && messages[..|old(messages)|] == old(messages)
    {
      messages := messages + [m];
    }

    /** The error callback: back to the join screen with no client. */
    method OnConnectError()
      modifies this`isChatConnected, this`client
      ensures !isChatConnected && client == None
    {
      isChatConnected := false;
      client := None;
    }

    method SetMessageInput(s: string)
      modifies this`messageInput
      ensures messageInput == s
    {
      messageInput := s;
    }

    method SetRecipient(s: string)
      modifies this`recipient
      ensures recipient == s
    {
      recipient := s;
    }

    /** `sendMessage`: only through a connected client and only a non-empty input; both inputs are then cleared. */
    method SendMessage() returns (sent: Option<Outgoing>)
      modifies this`messageInput, this`recipient
      ensures sent.Some? <==> client.Some? && client.value.connected && old(messageInput) != ""
      ensures sent.Some? ==> sent.value == Compose(username, old(messageInput), old(recipient))
      ensures sent.Some? ==> messageInput == "" && recipient == ""
      ensures sent.None? ==> messageInput == old(messageInput) && recipient == old(recipient)
    {
      if client.Some? && client.value.connected && messageInput != "" {
        sent := Some(Compose(username, messageInput, recipient));
        messageInput := "";
        recipient := "";
      } else {
        sent := None;
      }
    }
  }

  /**
   * A message the room sends that arrives unchanged on a subscription ends the
   * log, drawn as the user's own and labelled `PRIVATE` or `CHAT` as the
   * recipient decided; nothing sent, nothing logged.
   */
  method SendThenReceive(room: Room) returns (sent: Option<Outgoing>)
    modifies room`messageInput, room`recipient, room`messages
    ensures sent.Some? ==> |room.messages| == |old(room.messages)| + 1
    ensures sent.Some? ==> room.messages[..|old(room.messages)|] == old(room.messages)
    ensures sent.Some? ==> IsOwn(room.messages[|room.messages| - 1], room.username)
    ensures sent.Some? ==> TypeName(room.messages[|room.messages| - 1].kind) == (if old(room.recipient) != "" then "PRIVATE" else "CHAT")
    ensures sent.None? ==> room.messages == old(room.messages)
  {
    sent := room.SendMessage();
    if sent.Some? {
      room.OnMessage(sent.value.message);
    }
  }
}
