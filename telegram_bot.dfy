/**
 * The Telegram bot's order conversation. The bot keeps two dictionaries
 * keyed by chat id: the registered bot users and the open order sessions.
 * `/start` registers a chat, `/order` opens a session at the product-link
 * step, and every other text message is first checked against the menu
 * buttons and the cancel button and then answers the session's current
 * step. The last answer sends the order to the HTTP order function and
 * closes the session.
 */
module TelegramBot {
  import opened Common
  import opened JsNumber
  import PlaceOrderApi
  import Schema
  import Text

  const OrderButton := "📦 Đặt đơn hàng"
  const TrackButton := "🔍 Tra cứu đơn hàng"
  const AccountButton := "👤 Tài khoản"
  const MenuButton := "📋 Menu"
  const CancelButton := "❌ Hủy đặt hàng"
  /** The answer that means "no notes". */
  const NoNotes := "Không"

  /** The four menu-keyboard buttons, which never reach a session. */
  predicate IsMenuButton(text: string) {
    text == OrderButton || text == TrackButton || text == AccountButton || text == MenuButton
  }

  /** The steps of an order session, in the order they are asked. */
  datatype Step = ProductLink | Quantity | Notes | RecipientName | Address | Contact

  /** The position of a step in the conversation. */
  function StepIndex(s: Step): nat {
    match s
    case ProductLink => 0
    case Quantity => 1
    case Notes => 2
    case RecipientName => 3
    case Address => 4
    case Contact => 5
  }

  /** An open session: its step and the answers given so far (`None` until given). */
  datatype Session = Session(
    step: Step,
    productLink: Option<string>,
    quantity: Option<int>,
    notes: Option<string>,
    recipientName: Option<string>,
    address: Option<string>)

  /** `{ step: 'product_link' }`. */
  const FreshSession := Session(ProductLink, None, None, None, None, None)

  /** The sender of a message, as Telegram describes it. */
  datatype Sender = Sender(id: int, username: Option<string>, firstName: Option<string>, lastName: Option<string>)

  /** A registered bot user and the codes of the orders placed through the bot. */
  datatype BotUser = BotUser(
    chatId: int, telegramId: int, username: string, firstName: string, lastName: string,
    orders: seq<string>)

  /** The record `/start` stores for a new chat (missing names become ""). */
  function NewUser(chatId: int, from: Sender): (u: BotUser)
    ensures u.chatId == chatId && u.telegramId == from.id && u.orders == []
    ensures u.username == OrElse(from.username, "") && u.firstName == OrElse(from.firstName, "")
            && u.lastName == OrElse(from.lastName, "")
  {
    BotUser(chatId, from.id, OrElse(from.username, ""), OrElse(from.firstName, ""),
            OrElse(from.lastName, ""), [])
  }

  /**
   * What the HTTP order function answered: a body with `success` and the
   * new order code, a body without `success`, or an error (a non-2xx
   * status or no answer at all).
   */
  datatype ApiReply = Succeeded(orderCode: string) | NotSucceeded | Failed

  /** The JSON body posted at the contact step; a missing quantity is left out of the JSON. */
  function OrderBody(s: Session, contact: string): (b: PlaceOrderApi.Body)
    ensures b.voucherCode.None? && b.userId.None? && b.email.None?
    ensures b.productLink == s.productLink && b.recipientName == s.recipientName
            && b.address == s.address && b.phoneOrContact == Some(contact)
    ensures b.notes == NullIfEmpty(s.notes)
    ensures s.quantity.Some? ==> b.quantity == PlaceOrderApi.JsonNumber(s.quantity.value)
  {
    PlaceOrderApi.Body(
      None, s.productLink,
      if s.quantity.Some? then PlaceOrderApi.JsonNumber(s.quantity.value) else PlaceOrderApi.JsonNull,
      None, s.recipientName, Some(contact), s.address, None, NullIfEmpty(s.notes))
  }

  /** What one answer does to a session. */
  datatype Outcome = Stay | Move(next: Session) | Submit(body: PlaceOrderApi.Body)

  /** The quantity answer is rejected when it is NaN or below 1. */
  predicate ValidQuantity(text: string) {
    ParseInt(text).Some? && ParseInt(text).value >= 1
  }

  /** The `switch (session.step)`. */
  function Transition(s: Session, text: string): Outcome {
    match s.step
    case ProductLink => Move(s.(step := Quantity, productLink := Some(text)))
    case Quantity =>
      if !ValidQuantity(text) then Stay
      else Move(s.(step := Notes, quantity := ParseInt(text)))
    case Notes => Move(s.(step := RecipientName, notes := Some(if text == NoNotes then "" else text)))
    case RecipientName => Move(s.(step := Address, recipientName := Some(text)))
    case Address => Move(s.(step := Contact, address := Some(text)))
    case Contact => Submit(OrderBody(s, text))
  }

  /** The session dictionary after `chat` answers its open session. */
  function Answer(sessions: map<int, Session>, chat: int, text: string): (r: map<int, Session>)
    requires chat in sessions
    ensures r.Keys <= sessions.Keys
  {
    match Transition(sessions[chat], text)
    case Stay => sessions
    case Move(next) => sessions[chat := next]
    case Submit(_) => sessions - {chat}
  }

  /** The body an outcome posts, if any. */
  function Posted(o: Outcome): Option<PlaceOrderApi.Body> {
    if o.Submit? then Some(o.body) else None
  }

  /** The session dictionary after a text message from `chat`. */
  function NextSessions(sessions: map<int, Session>, chat: int, text: string): map<int, Session> {
    if IsMenuButton(text) then sessions
    else if text == CancelButton then sessions - {chat}
    else if chat !in sessions then sessions
    else Answer(sessions, chat, text)
  }

  /** The body posted for a text message from `chat`, if it completed a session. */
  function SentBody(sessions: map<int, Session>, chat: int, text: string): Option<PlaceOrderApi.Body> {
    if IsMenuButton(text) || text == CancelButton || chat !in sessions then None
    else Posted(Transition(sessions[chat], text))
  }

  /** `user.orders.push(code)` for a registered chat. */
  function AddOrder(users: map<int, BotUser>, chat: int, code: string): (r: map<int, BotUser>)
    requires chat in users
    ensures r.Keys == users.Keys
    ensures forall c :: c in r ==> r[c].chatId == users[c].chatId
    ensures r[chat].orders == users[chat].orders + [code]
  {
    users[chat := users[chat].(orders := users[chat].orders + [code])]
  }

  /** The user dictionary after that message: a successful order is appended to the chat's orders. */
  function NextUsers(users: map<int, BotUser>, sessions: map<int, Session>, chat: int, text: string,
                     reply: ApiReply): map<int, BotUser> {
    if SentBody(sessions, chat, text).Some? && reply.Succeeded? && chat in users then
      AddOrder(users, chat, reply.orderCode)
    else users
  }

  /** The message reaches a session at the contact step, whose handler then awaits the order function. */
  predicate AnswersContact(sessions: map<int, Session>, chat: int, text: string) {
    !IsMenuButton(text) && text != CancelButton && chat in sessions && sessions[chat].step == Contact
  }

  /**
   * The user dictionary once the library has also run the `onText`
   * handlers. Their patterns are not anchored, so `/start` runs for every
   * text that contains "/start".
   */
  function ReceivedUsers(users: map<int, BotUser>, sessions: map<int, Session>, chat: int, from: Sender,
                         text: string, reply: ApiReply): map<int, BotUser> {
    var u := NextUsers(users, sessions, chat, text, reply);
    if Text.Contains(text, "/start") && chat !in u then u[chat := NewUser(chat, from)] else u
  }

  /**
   * The session dictionary once the `onText` handlers have run: `/order`
   * runs for every text that contains "/order" and restarts the session of
   * a registered chat. At the contact step the fresh session it opens is
   * deleted again when the awaited order request settles.
   */
  function ReceivedSessions(users: map<int, BotUser>, sessions: map<int, Session>, chat: int,
                            text: string): map<int, Session> {
    var next := NextSessions(sessions, chat, text);
    if Text.Contains(text, "/order") && !AnswersContact(sessions, chat, text)
       && (chat in users || Text.Contains(text, "/start"))
    then next[chat := FreshSession]
    else next
  }

  /** The bot's in-memory state. */
  class Bot {
    var users: map<int, BotUser>
    var sessions: map<int, Session>

    /** Every session belongs to a registered chat, and each user is filed under its own chat id. */
    predicate Valid()
      reads this
    {
      sessions.Keys <= users.Keys && forall c :: c in users ==> users[c].chatId == c
    }

    constructor ()
      ensures Valid() && users == map[] && sessions == map[]
    {
      users := map[];
      sessions := map[];
    }

    /** `/start`: a chat is registered once; a known chat keeps its record. */
    method Start(chatId: int, from: Sender)
      modifies this
      ensures users == if chatId in old(users) then old(users) else old(users)[chatId := NewUser(chatId, from)]
      ensures sessions == old(sessions)
      ensures old(Valid()) ==> Valid()
    {
      if chatId !in users {
        users := users[chatId := NewUser(chatId, from)];
      }
    }

    /** `/order`: opens (or restarts) a session, for a registered chat only. */
    method StartOrder(chatId: int) returns (registered: bool)
      modifies this
      ensures registered <==> chatId in old(users)
      ensures sessions == if registered then old(sessions)[chatId := FreshSession] else old(sessions)
      ensures users == old(users)
      ensures old(Valid()) ==> Valid()
    {
      if chatId !in users {
        return false;
      }
      sessions := sessions[chatId := FreshSession];
      return true;
    }

    /**
     * The message handler for a text message. `reply` is what the order
     * function answers if this message completes a session; `sent` is the
     * body posted to it.
     */
    method OnMessage(chatId: int, text: string, reply: ApiReply) returns (sent: Option<PlaceOrderApi.Body>)
      modifies this
      ensures sessions == NextSessions(old(sessions), chatId, text)
      ensures users == NextUsers(old(users), old(sessions), chatId, text, reply)
      ensures sent == SentBody(old(sessions), chatId, text)
      ensures old(Valid()) ==> Valid()
    {
      sent := None;
      if text == OrderButton || text == TrackButton || text == AccountButton || text == MenuButton {
        return;
      }
      if text == CancelButton {
        sessions := sessions - {chatId};
        return;
      }
      if chatId !in sessions {
        return;
      }
      sent := AnswerStep(chatId, text, reply);
    }

    /**
     * One text update as the library dispatches it: the `message` handler
     * first, then each `onText` handler whose pattern occurs in the text, in
     * the order they were registered (`/start` before `/order`). The other
     * patterns only send replies.
     */
    method Receive(chatId: int, from: Sender, text: string, reply: ApiReply) returns (sent: Option<PlaceOrderApi.Body>)
      modifies this
      ensures sent == SentBody(old(sessions), chatId, text)
      ensures sessions == ReceivedSessions(old(users), old(sessions), chatId, text)
      ensures users == ReceivedUsers(old(users), old(sessions), chatId, from, text, reply)
      ensures old(Valid()) ==> Valid()
    {
      var atContact := AnswersContact(sessions, chatId, text);
      sent := OnMessage(chatId, text, reply);
      if Text.Contains(text, "/start") {
        Start(chatId, from);
      }
      if Text.Contains(text, "/order") && !atContact {
        var registered := StartOrder(chatId);
      }
    }

    /** The `switch (session.step)` on the chat's open session. */
    method AnswerStep(chatId: int, text: string, reply: ApiReply) returns (sent: Option<PlaceOrderApi.Body>)
      requires chatId in sessions
      modifies this
      ensures sessions == Answer(old(sessions), chatId, text)
      ensures sent == Posted(Transition(old(sessions)[chatId], text))
      ensures users == if sent.Some? && reply.Succeeded? && chatId in old(users)
                       then AddOrder(old(users), chatId, reply.orderCode) else old(users)
      ensures old(Valid()) ==> Valid()
    {
      sent := None;
      var session := sessions[chatId];
      match session.step {
        case ProductLink =>
          sessions := sessions[chatId := session.(productLink := Some(text), step := Quantity)];
        case Quantity =>
          var quantity := ParseInt(text);
          if quantity.None? || quantity.value < 1 {
            return;
          }
          sessions := sessions[chatId := session.(quantity := quantity, step := Notes)];
        case Notes =>
          sessions := sessions[chatId := session.(notes := Some(if text == NoNotes then "" else text), step := RecipientName)];
        case RecipientName =>
          sessions := sessions[chatId := session.(recipientName := Some(text), step := Address)];
        case Address =>
          sessions := sessions[chatId := session.(address := Some(text), step := Contact)];
        case Contact =>
          var body := OrderBody(session, text);
          sent := Some(body);
          if reply.Succeeded? && chatId in users {
            var user := users[chatId];
            users := users[chatId := user.(orders := user.orders + [reply.orderCode])];
          }
          sessions := sessions - {chatId};
      }
    }
  }

  /** Each accepted answer moves the session exactly one step on, keeping the earlier answers. */
  lemma TransitionAdvancesOneStep(s: Session, text: string)
    ensures Transition(s, text).Move? ==>
              var n := Transition(s, text).next;
              && StepIndex(n.step) == StepIndex(s.step) + 1
              && (s.step != ProductLink ==> n.productLink == s.productLink)
              && (s.step != Quantity ==> n.quantity == s.quantity)
              && (s.step != Notes ==> n.notes == s.notes)
              && (s.step != RecipientName ==> n.recipientName == s.recipientName)
              && (s.step != Address ==> n.address == s.address)
    ensures Transition(s, text).Submit? <==> s.step == Contact
    ensures Transition(s, text).Stay? <==> s.step == Quantity && !ValidQuantity(text)
  {
  }

  /** A quantity answer that is NaN or below 1 leaves every session as it was. */
  lemma InvalidQuantityKeepsSession(sessions: map<int, Session>, chat: int, text: string)
    requires chat in sessions && sessions[chat].step == Quantity
    requires !IsMenuButton(text) && text != CancelButton
    requires ParseInt(text).None? || ParseInt(text).value < 1
    ensures NextSessions(sessions, chat, text) == sessions
    ensures SentBody(sessions, chat, text).None?
  {
  }

  /** A message from a chat without a session changes nothing. */
  lemma NoSessionNoChange(users: map<int, BotUser>, sessions: map<int, Session>, chat: int,
                          text: string, reply: ApiReply)
    requires chat !in sessions
    ensures NextSessions(sessions, chat, text) == sessions
    ensures NextUsers(users, sessions, chat, text, reply) == users
  {
    assert sessions - {chat} == sessions;
  }

  /** The cancel button closes the chat's session from any step. */
  lemma CancelClosesSession(sessions: map<int, Session>, chat: int)
    ensures chat !in NextSessions(sessions, chat, CancelButton)
    ensures SentBody(sessions, chat, CancelButton).None?
  {
  }

  /** The menu buttons never reach a session. */
  lemma MenuButtonsIgnored(users: map<int, BotUser>, sessions: map<int, Session>, chat: int,
                           text: string, reply: ApiReply)
    requires IsMenuButton(text)
    ensures NextSessions(sessions, chat, text) == sessions
    ensures NextUsers(users, sessions, chat, text, reply) == users
  {
  }

  /** Another chat's message never touches this chat's session. */
  lemma OtherChatsUntouched(sessions: map<int, Session>, chat: int, other: int, text: string)
    requires other != chat
    ensures other in NextSessions(sessions, chat, text) <==> other in sessions
    ensures other in sessions ==> NextSessions(sessions, chat, text)[other] == sessions[other]
  {
  }

  /**
   * The contact answer closes the session whatever the order function
   * answers, and only a successful answer records the order code.
   */
  lemma ContactClosesSession(users: map<int, BotUser>, sessions: map<int, Session>, chat: int,
                             text: string, reply: ApiReply)
    requires chat in sessions && sessions[chat].step == Contact
    requires !IsMenuButton(text) && text != CancelButton
    requires chat in users
    ensures chat !in NextSessions(sessions, chat, text)
    ensures SentBody(sessions, chat, text) == Some(OrderBody(sessions[chat], text))
    ensures reply.Succeeded? ==>
              NextUsers(users, sessions, chat, text, reply)[chat].orders == users[chat].orders + [reply.orderCode]
    ensures !reply.Succeeded? ==> NextUsers(users, sessions, chat, text, reply) == users
  {
  }

  /**
   * An answer containing "/order" given before the contact step is thrown
   * away: the registered chat's session restarts at the product link and
   * nothing is posted.
   */
  lemma OrderInAnswerRestarts(users: map<int, BotUser>, sessions: map<int, Session>, chat: int, text: string)
    requires chat in users && chat in sessions && sessions[chat].step != Contact
    requires Text.Contains(text, "/order")
    ensures chat in ReceivedSessions(users, sessions, chat, text)
    ensures ReceivedSessions(users, sessions, chat, text)[chat] == FreshSession
    ensures SentBody(sessions, chat, text).None?
  {
  }

  /** At the contact step the order is still posted and the session still closed. */
  lemma OrderAtContactCloses(users: map<int, BotUser>, sessions: map<int, Session>, chat: int, text: string)
    requires AnswersContact(sessions, chat, text)
    ensures chat !in ReceivedSessions(users, sessions, chat, text)
    ensures SentBody(sessions, chat, text) == Some(OrderBody(sessions[chat], text))
  {
  }

  /** A text with neither command in it is handled by the message handler alone. */
  lemma PlainTextOnlyMessageHandler(users: map<int, BotUser>, sessions: map<int, Session>, chat: int,
                                    from: Sender, text: string, reply: ApiReply)
    requires !Text.Contains(text, "/order") && !Text.Contains(text, "/start")
    ensures ReceivedSessions(users, sessions, chat, text) == NextSessions(sessions, chat, text)
    ensures ReceivedUsers(users, sessions, chat, from, text, reply) == NextUsers(users, sessions, chat, text, reply)
  {
  }

  /** A product link whose path holds "/order" restarts the conversation instead of moving to the quantity. */
  lemma OrderLinkRestarts(users: map<int, BotUser>, sessions: map<int, Session>, chat: int)
    requires chat in users && chat in sessions && sessions[chat].step == ProductLink
    ensures ReceivedSessions(users, sessions, chat, "https://shop.example/order/123")[chat] == FreshSession
    ensures Transition(sessions[chat], "https://shop.example/order/123").Move?
  {
    var link := "https://shop.example/order/123";
    assert link[20..26] == "/order";
    assert Text.OccursAt(link, "/order", 20);
    OrderInAnswerRestarts(users, sessions, chat, link);
  }

  /** The answers of one chat given in turn to a session: where the conversation stops or what it posts. */
  function Converse(s: Session, answers: seq<string>): Outcome
    decreases |answers|
  {
    if answers == [] then Move(s)
    else match Transition(s, answers[0])
      case Move(next) => Converse(next, answers[1..])
      case other => other
  }

  /**
   * A whole conversation: six accepted answers after `/order` post a body
   * holding exactly those answers. "No notes" is posted as `null`.
   */
  lemma ConversationPostsAnswers(link: string, qty: string, notes: string,
                                 name: string, addr: string, contact: string)
    requires ValidQuantity(qty)
    ensures var o := Converse(FreshSession, [link, qty, notes, name, addr, contact]);
            && o.Submit?
            && o.body.productLink == Some(link) && o.body.quantity == PlaceOrderApi.JsonNumber(ParseInt(qty).value)
            && o.body.recipientName == Some(name) && o.body.address == Some(addr)
            && o.body.phoneOrContact == Some(contact)
            && o.body.notes == (if notes == NoNotes || notes == "" then None else Some(notes))
  {
    var stored := if notes == NoNotes then "" else notes;
    FullConversation(link, qty, notes, name, addr, contact);
    var s5 := Session(Contact, Some(link), ParseInt(qty), Some(stored), Some(name), Some(addr));
    var b := OrderBody(s5, contact);
    assert b.notes == NullIfEmpty(Some(stored));
  }

  /** The six answers reach the contact step with every answer stored, and post its body. */
  lemma FullConversation(link: string, qty: string, notes: string, name: string, addr: string, contact: string)
    requires ValidQuantity(qty)
    ensures Converse(FreshSession, [link, qty, notes, name, addr, contact])
            == Submit(OrderBody(Session(Contact, Some(link), ParseInt(qty),
                                        Some(if notes == NoNotes then "" else notes), Some(name), Some(addr)), contact))
  {
    var s2 := Session(Notes, Some(link), ParseInt(qty), None, None, None);
    FirstAnswers(link, qty, [notes, name, addr, contact]);
    assert [link, qty] + [notes, name, addr, contact] == [link, qty, notes, name, addr, contact];
    TextAnswers(s2, notes, name, addr, contact);
    ContactAnswer(s2.(step := Contact, notes := Some(if notes == NoNotes then "" else notes),
                      recipientName := Some(name), address := Some(addr)), contact);
  }

  /** The contact answer posts the session's body. */
  lemma ContactAnswer(s: Session, contact: string)
    requires s.step == Contact
    ensures Converse(s, [contact]) == Submit(OrderBody(s, contact))
  {
  }

  /** The link and a valid quantity open the notes step with both stored. */
  lemma FirstAnswers(link: string, qty: string, rest: seq<string>)
    requires ValidQuantity(qty)
    ensures Converse(FreshSession, [link, qty] + rest)
            == Converse(Session(Notes, Some(link), ParseInt(qty), None, None, None), rest)
  {
    var s1 := Session(Quantity, Some(link), None, None, None, None);
    assert [link, qty] + rest == [link] + ([qty] + rest);
    ConverseStep(FreshSession, link, [qty] + rest, s1);
    ConverseStep(s1, qty, rest, s1.(step := Notes, quantity := ParseInt(qty)));
  }

  /** The notes, name and address answers are stored as given ("Không" as ""), reaching the contact step. */
  lemma TextAnswers(s: Session, notes: string, name: string, addr: string, contact: string)
    requires s.step == Notes
    ensures Converse(s, [notes, name, addr, contact])
            == Converse(s.(step := Contact, notes := Some(if notes == NoNotes then "" else notes),
                           recipientName := Some(name), address := Some(addr)), [contact])
  {
    var s3 := s.(step := RecipientName, notes := Some(if notes == NoNotes then "" else notes));
    var s4 := s3.(step := Address, recipientName := Some(name));
    var s5 := s4.(step := Contact, address := Some(addr));
    assert [notes, name, addr, contact] == [notes] + [name, addr, contact];
    ConverseStep(s, notes, [name, addr, contact], s3);
    assert [name, addr, contact] == [name] + [addr, contact];
    ConverseStep(s3, name, [addr, contact], s4);
    assert [addr, contact] == [addr] + [contact];
    ConverseStep(s4, addr, [contact], s5);
  }

  /** An accepted answer hands the rest of the conversation to the next session. */
  lemma ConverseStep(s: Session, answer: string, rest: seq<string>, next: Session)
    requires Transition(s, answer) == Move(next)
    ensures Converse(s, [answer] + rest) == Converse(next, rest)
  {
    assert ([answer] + rest)[1..] == rest;
  }

  /**
   * The posted body passes the order function's required-field check
   * exactly when the link, name, address and contact answers are non-empty;
   * the quantity always passes.
   */
  lemma PostedBodyRequiredFields(s: Session, contact: string)
    requires s.step == Contact && s.productLink.Some? && s.recipientName.Some? && s.address.Some?
    requires s.quantity.Some? && s.quantity.value >= 1
    ensures PlaceOrderApi.HasRequiredFields(OrderBody(s, contact)) <==>
              s.productLink.value != "" && s.recipientName.value != "" && s.address.value != "" && contact != ""
  {
  }

  /** The bot never sends a voucher code, so its orders carry no voucher. */
  lemma PostedBodyHasNoVoucher(s: Session, contact: string, vouchers: seq<Schema.VoucherRow>)
    ensures PlaceOrderApi.AppliedVoucher(OrderBody(s, contact), vouchers).None?
  {
  }

  /** `getStatusText`: the five listed codes get a label, anything else is shown as it is. */
  function StatusText(status: string): (r: string)
    ensures status !in StatusTextKeys ==> r == status
    ensures status in StatusTextKeys ==> r != status && r != ""
  {
    if status == "pending" then "Chờ xử lý"
    else if status == "processing" then "Đang xử lý"
    else if status == "shipping" then "Đang giao hàng"
    else if status == "delivered" then "Đã giao"
    else if status == "cancelled" then "Đã hủy"
    else status
  }

  const StatusTextKeys: seq<string> := ["pending", "processing", "shipping", "delivered", "cancelled"]

  /** Three of the six order statuses are not in the bot's table and are shown raw. */
  lemma StatusTextRawForUnlisted()
    ensures StatusText(Schema.StatusName(Schema.Ordered)) == "ordered"
    ensures StatusText(Schema.StatusName(Schema.Completed)) == "completed"
    ensures StatusText(Schema.StatusName(Schema.AwaitingPayment)) == "awaiting_payment"
    ensures StatusText("processing") != "processing" && StatusText("delivered") != "delivered"
  {
  }

  /** Every stored payment status gets a label. */
  lemma PaymentStatusTextLabelsAll(p: Schema.PaymentStatus)
    ensures PaymentStatusText(Schema.PaymentName(p)) != Schema.PaymentName(p)
  {
  }

  /** `getPaymentStatusText`: all three payment statuses get a label, anything else is shown as it is. */
  function PaymentStatusText(status: string): (r: string)
    ensures status !in ["unpaid", "paid", "refunded"] ==> r == status
    ensures status in ["unpaid", "paid", "refunded"] ==> r != status && r != ""
  {
    if status == "unpaid" then "Chưa thanh toán"
    else if status == "paid" then "Đã thanh toán"
    else if status == "refunded" then "Đã hoàn tiền"
    else status
  }
}
