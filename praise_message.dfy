/** One praise card: its colour, bubble icon and the name it shows. */
module PraiseMessage {
  import opened Wrappers
  import opened Js
  import TimeAgo

  const MaleBorder := "#2AB7CA"
  const OtherBorder := "#FE4B4A"
  const MaleBubble := "/assets/blue-bubble.png"
  const OtherBubble := "/assets/orenge-bubble.png"
  const Anonymous := "익명"

  /** What a card shows; `displayName` and `content` are the JavaScript values
      rendered (`None` renders nothing). */
  datatype Card = Card(borderColor: string, bubbleIcon: string, displayName: Option<Json>,
                       time: string, content: Option<Json>)

  /** The card for `message`, or `None` when `message` is falsy. `isSent` is
      the prop (absent means false); `elapsedMs` is the time since the message's
      timestamp, as `TimeAgo.FormatTimeAgo` takes it. */
  function Render(message: Option<Json>, isSent: Option<Json>, elapsedMs: Option<int>): (r: Option<Card>)
    ensures r.None? <==> !Truthy(message)
  {
    if !Truthy(message) then None
    else
      var m := message.value;
      var male := StrictEq(Prop(m, "gender"), Some(JStr("male")));
      Some(Card(
        if male then MaleBorder else OtherBorder,
        if male then MaleBubble else OtherBubble,
        DisplayName(m, Truthy(isSent)),
        TimeAgo.FormatTimeAgo(Prop(m, "timestamp"), elapsedMs),
        Prop(m, "content")))
  }

  function DisplayName(m: Json, sent: bool): Option<Json> {
    if sent then FirstTruthy([Prop(m, "receiverName")], Prop(m, "name"))
    else if Truthy(FirstTruthy([Prop(m, "isAnonymous")], Prop(m, "anonymity"))) then Some(JStr(Anonymous))
    else FirstTruthy([Prop(m, "senderName")], Prop(m, "name"))
  }

  /** A male sender gets the blue border and bubble; everyone else, including
      a missing gender, the orange ones. */
  lemma ColourByGender(message: Json, isSent: Option<Json>, elapsedMs: Option<int>)
    requires Truthy(Some(message))
    ensures var c := Render(Some(message), isSent, elapsedMs).value;
      (c.borderColor == MaleBorder <==> Prop(message, "gender") == Some(JStr("male")))
      && (c.bubbleIcon == MaleBubble <==> c.borderColor == MaleBorder)
  {
  }

  /** A sent card shows the receiver's name (or `name`) whatever its anonymity. */
  lemma SentShowsReceiver(message: Json, isSent: Option<Json>, elapsedMs: Option<int>)
    requires Truthy(Some(message)) && Truthy(isSent)
    ensures Render(Some(message), isSent, elapsedMs).value.displayName ==
      (if Truthy(Prop(message, "receiverName")) then Prop(message, "receiverName") else Prop(message, "name"))
  {
  }

  /** A received card (including one rendered without `isSent`) says "익명"
      exactly when either anonymity flag is truthy, and otherwise shows the
      sender's name (or `name`). */
  lemma ReceivedHidesAnonymous(message: Json, isSent: Option<Json>, elapsedMs: Option<int>)
    requires Truthy(Some(message)) && !Truthy(isSent)
    ensures var name := Render(Some(message), isSent, elapsedMs).value.displayName;
      if Truthy(Prop(message, "isAnonymous")) || Truthy(Prop(message, "anonymity"))
      then name == Some(JStr(Anonymous))
      else name == (if Truthy(Prop(message, "senderName")) then Prop(message, "senderName") else Prop(message, "name"))
  {
  }
}
