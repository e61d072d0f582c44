/**
 * The administrator side of handlers/admin.py: the admin gate, the broadcast
 * session (the FSM context the handlers are given) and its handlers, the fan-out of a
 * confirmed broadcast with its failure classification and report, and the
 * first-ten user listing.
 *
 * Telegram's "copy message" call is an oracle `deliver` that answers each
 * attempt (numbered from 0 in list order) with success or an error text.
 * The database's user list is an input.
 */
module Admin {
  import opened Common
  import opened Text

  // ---------------------------------------------------------------- the admin gate

  /** ADMIN_IDS. */
  const AdminIds: seq<int> := [1835558263]

  /** `is_admin`: the one configured administrator and nobody else. */
  function IsAdmin(userId: int): (r: bool)
    ensures r <==> userId == 1835558263
  {
    userId in AdminIds
  }

  // ---------------------------------------------------------------- users

  /** A row of the users table, reduced to the fields the handlers read. */
  datatype UserRecord = UserRecord(userId: int, username: Option<string>, subscribed: bool)

  /** `user.get("username")` is truthy: present and not empty. */
  predicate HasUsername(u: UserRecord)
  {
    Truthy(u.username)
  }

  /** `sum(1 for u in users if u.get("is_subscribed"))`. */
  function CountSubscribed(users: seq<UserRecord>): (n: nat)
    ensures n <= |users|
    ensures n == |users| <==> forall i :: 0 <= i < |users| ==> users[i].subscribed
  {
    if users == [] then 0
    else
      var rest := CountSubscribed(users[1..]);
      assert forall i :: 1 <= i < |users| ==> users[i] == users[1..][i - 1];
      (if users[0].subscribed then 1 else 0) + rest
  }

  function Min(a: int, b: int): int { if a <= b then a else b }

  // ---------------------------------------------------------------- the captured message

  /** The parts of an incoming message the broadcast handlers read. */
  datatype Message = Message(
    sender: int, messageId: int, chatId: int, contentType: string,
    text: Option<string>, caption: Option<string>)

  /** `broadcast_message_info`. */
  datatype MessageInfo = MessageInfo(contentType: string, hasText: bool, preview: string)

  /** A Python string is truthy when it is present and not empty. */
  predicate Truthy(s: Option<string>) { s.Some? && s.value != "" }

  /** `message.text or message.caption or ""`. */
  function PreviewSource(text: Option<string>, caption: Option<string>): (body: string)
    ensures Truthy(text) ==> body == text.value
    ensures !Truthy(text) && Truthy(caption) ==> body == caption.value
    ensures body == "" <==> !Truthy(text) && !Truthy(caption)
  {
    if Truthy(text) then text.value else if Truthy(caption) then caption.value else ""
  }

  /** `body[:100]`, followed by `...` when the body is longer than 100 characters. */
  function Preview(body: string): (p: string)
    ensures |p| <= 103
    ensures |body| <= 100 ==> p == body
    ensures |body| > 100 ==> |p| == 103 && p[..100] == body[..100] && p[100..] == "..."
  {
    body[..Min(100, |body|)] + (if |body| > 100 then "..." else "")
  }

  /** The info stored about a captured message. */
  function Info(msg: Message): (info: MessageInfo)
    ensures info.contentType == msg.contentType
    ensures info.hasText <==> Truthy(msg.text) || Truthy(msg.caption)
    ensures info.preview == Preview(PreviewSource(msg.text, msg.caption))
  {
    var body := PreviewSource(msg.text, msg.caption);
    MessageInfo(msg.contentType, body != "", Preview(body))
  }

  // ---------------------------------------------------------------- failures

  /** Where a failed copy ends up, tested in this order. */
  datatype Failure = Blocked | ChatNotFound | OtherError(excerpt: string)

  function Classify(error: string): (f: Failure)
    ensures f.Blocked? <==> Contains(error, "Forbidden") || Contains(error, "bot was blocked")
    ensures f.ChatNotFound? <==> !f.Blocked? && Contains(error, "chat not found")
    ensures f.OtherError? ==> |f.excerpt| == Min(30, |error|) && StartsWith(error, f.excerpt)
  {
    if Contains(error, "Forbidden") || Contains(error, "bot was blocked") then Blocked
    else if Contains(error, "chat not found") then ChatNotFound
    else OtherError(error[..Min(30, |error|)])
  }

  function Reason(f: Failure): string
  {
    match f
    case Blocked => "заблокировал бота"
    case ChatNotFound => "чат не найден"
    case OtherError(excerpt) => excerpt + "..."
  }

  /** `ID: <id>`, then ` (@<username>)` when the user has one. */
  function UserInfo(u: UserRecord): string
  {
    "ID: " + IntToString(u.userId) + (if HasUsername(u) then " (@" + u.username.value + ")" else "")
  }

  /** One entry of `failed_list`. */
  function EntryText(u: UserRecord, error: string): string
  {
    UserInfo(u) + " (" + Reason(Classify(error)) + ")"
  }

  /**
   * Every failure entry names its user: after the `ID: ` prefix, the text up
   * to the first space is the decimal id. What follows the id is
   * ` (@<username>)` exactly when the user has a username, and the entry
   * ends with the classified reason in parentheses.
   */
  lemma EntryNamesUser(u: UserRecord, error: string)
    ensures StartsWith(EntryText(u, error), "ID: ")
    ensures ParseInt(TakeUntil(EntryText(u, error)[4..], ' ')) == Some(u.userId)
    ensures HasUsername(u) ==>
              StartsWith(EntryText(u, error)[4 + |IntToString(u.userId)|..], " (@" + u.username.value + ")")
    ensures !HasUsername(u) ==>
              EntryText(u, error)[4 + |IntToString(u.userId)|..] == " (" + Reason(Classify(error)) + ")"
    ensures EndsWith(EntryText(u, error), " (" + Reason(Classify(error)) + ")")
  {
    var id := IntToString(u.userId);
    var handle := if HasUsername(u) then " (@" + u.username.value + ")" else "";
    IntToStringChars(u.userId, ' ');
    EntryShape(id, handle, Reason(Classify(error)));
    EntryLayout(id, handle, Reason(Classify(error)));
    IntToStringRoundTrip(u.userId);
  }

  /** The text between `ID: ` and the first space is the id, whatever follows it. */
  lemma EntryShape(id: string, handle: string, why: string)
    requires ' ' !in id && (handle == [] || handle[0] == ' ')
    ensures StartsWith("ID: " + id + handle + " (" + why + ")", "ID: ")
    ensures TakeUntil(("ID: " + id + handle + " (" + why + ")")[4..], ' ') == id
  {
    var entry := "ID: " + id + handle + " (" + why + ")";
    var rest := handle + " (" + why + ")";
    assert rest == [' '] + rest[1..] by {
      assert rest[0] == ' ';
    }
    assert entry == "ID: " + (id + rest);
    assert entry[4..] == id + [' '] + rest[1..];
    TakeUntilFirst(id, ' ', rest[1..]);
  }

  /** The handle follows the id, and the reason in parentheses closes the entry. */
  lemma EntryLayout(id: string, handle: string, why: string)
    ensures StartsWith(("ID: " + id + handle + " (" + why + ")")[4 + |id|..], handle)
    ensures handle == [] ==> ("ID: " + id + handle + " (" + why + ")")[4 + |id|..] == " (" + why + ")"
    ensures EndsWith("ID: " + id + handle + " (" + why + ")", " (" + why + ")")
  {
    var entry := "ID: " + id + handle + " (" + why + ")";
    var front := "ID: " + id;
    var tail := " (" + why + ")";
    assert entry == front + (handle + tail);
    assert entry[|front|..] == handle + tail;
    assert (handle + tail)[..|handle|] == handle;
    assert entry == (front + handle) + tail;
  }

  // ---------------------------------------------------------------- the fan-out

  /** One `copy_message(chat_id, from_chat_id, message_id)` call. */
  datatype CopyRequest = CopyRequest(chatId: int, fromChatId: Option<int>, messageId: Option<int>)

  datatype SendOutcome = Delivered | Failed(error: string)

  /** What the transport answers to each attempt, in list order. */
  function Outcomes(users: seq<UserRecord>, fromChatId: Option<int>, messageId: Option<int>,
                    deliver: (nat, CopyRequest) -> SendOutcome): (outcomes: seq<SendOutcome>)
    ensures |outcomes| == |users|
    ensures forall i :: 0 <= i < |users| ==>
              outcomes[i] == deliver(i, CopyRequest(users[i].userId, fromChatId, messageId))
  {
    seq(|users|, i requires 0 <= i < |users| => deliver(i, CopyRequest(users[i].userId, fromChatId, messageId)))
  }

  /** Successful attempts among the first `k`. */
  function SuccessCount(outcomes: seq<SendOutcome>, k: nat): nat
    requires k <= |outcomes|
  {
    if k == 0 then 0 else SuccessCount(outcomes, k - 1) + (if outcomes[k - 1].Delivered? then 1 else 0)
  }

  /** A failed attempt: the user and the error text. */
  datatype FailedAttempt = FailedAttempt(user: UserRecord, error: string)

  /** The failed attempts among the first `k`, in list order. */
  function FailedAttempts(users: seq<UserRecord>, outcomes: seq<SendOutcome>, k: nat): seq<FailedAttempt>
    requires |outcomes| == |users| && k <= |users|
  {
    if k == 0 then []
    else
      FailedAttempts(users, outcomes, k - 1) +
      match outcomes[k - 1]
      case Delivered => []
      case Failed(error) => [FailedAttempt(users[k - 1], error)]
  }

  /** The `failed_list` entries for a sequence of failed attempts. */
  function Entries(attempts: seq<FailedAttempt>): (entries: seq<string>)
    ensures |entries| == |attempts|
    ensures forall i :: 0 <= i < |attempts| ==> entries[i] == EntryText(attempts[i].user, attempts[i].error)
  {
    seq(|attempts|, i requires 0 <= i < |attempts| => EntryText(attempts[i].user, attempts[i].error))
  }

  /**
   * The `failed_list` entry of each failed attempt names that attempt's user
   * by id and closes with the reason its error text is classified as.
   */
  lemma EntriesNameUsers(attempts: seq<FailedAttempt>)
    ensures forall i :: 0 <= i < |attempts| ==>
              ParseInt(TakeUntil(Entries(attempts)[i][4..], ' ')) == Some(attempts[i].user.userId) &&
              EndsWith(Entries(attempts)[i], " (" + Reason(Classify(attempts[i].error)) + ")")
  {
    forall i | 0 <= i < |attempts|
      ensures ParseInt(TakeUntil(Entries(attempts)[i][4..], ' ')) == Some(attempts[i].user.userId)
      ensures EndsWith(Entries(attempts)[i], " (" + Reason(Classify(attempts[i].error)) + ")")
    {
      EntryNamesUser(attempts[i].user, attempts[i].error);
    }
  }

  lemma EntriesAppend(attempts: seq<FailedAttempt>, last: FailedAttempt)
    ensures Entries(attempts + [last]) == Entries(attempts) + [EntryText(last.user, last.error)]
  {
  }

  /** Every attempt is counted exactly once, as a success or as a failed attempt. */
  lemma {:induction false} AttemptsAccounted(users: seq<UserRecord>, outcomes: seq<SendOutcome>, k: nat)
    requires |outcomes| == |users| && k <= |users|
    ensures SuccessCount(outcomes, k) + |FailedAttempts(users, outcomes, k)| == k
  {
    if k > 0 {
      AttemptsAccounted(users, outcomes, k - 1);
    }
  }

  /** The failed attempts are exactly the attempts that failed, each with its user and error. */
  lemma {:induction false} FailedAttemptsExact(users: seq<UserRecord>, outcomes: seq<SendOutcome>, k: nat)
    requires |outcomes| == |users| && k <= |users|
    ensures forall a :: a in FailedAttempts(users, outcomes, k) <==>
              exists i :: 0 <= i < k && outcomes[i] == Failed(a.error) && users[i] == a.user
  {
    if k > 0 {
      FailedAttemptsExact(users, outcomes, k - 1);
    }
  }

  /**
   * The copy loop of `broadcast_confirmation`: every user is attempted once,
   * in list order, and a failure never stops the loop.
   */
  method FanOut(users: seq<UserRecord>, fromChatId: Option<int>, messageId: Option<int>,
                deliver: (nat, CopyRequest) -> SendOutcome)
    returns (success: nat, failed: nat, failedList: seq<string>)
    ensures success == SuccessCount(Outcomes(users, fromChatId, messageId, deliver), |users|)
    ensures failedList == Entries(FailedAttempts(users, Outcomes(users, fromChatId, messageId, deliver), |users|))
    ensures failed == |failedList|
    ensures success + failed == |users|
  {
    ghost var outcomes := Outcomes(users, fromChatId, messageId, deliver);
    success, failed, failedList := 0, 0, [];
    var i := 0;
    while i < |users|
      invariant 0 <= i <= |users|
      invariant success == SuccessCount(outcomes, i)
      invariant failedList == Entries(FailedAttempts(users, outcomes, i))
      invariant failed == |failedList|
    {
      var user := users[i];
      var outcome := deliver(i, CopyRequest(user.userId, fromChatId, messageId));
      match outcome {
        case Delivered =>
          success := success + 1;
        case Failed(error) =>
          EntriesAppend(FailedAttempts(users, outcomes, i), FailedAttempt(user, error));
          failed := failed + 1;
          failedList := failedList + [EntryText(user, error)];
      }
      i := i + 1;
    }
    AttemptsAccounted(users, outcomes, |users|);
  }

  // ---------------------------------------------------------------- the report

  /** The error section: the first five entries numbered from 1, and how many are left out. */
  predicate ListsFirstFive(lines: seq<string>, more: Option<nat>, entries: seq<string>)
  {
    |lines| == Min(5, |entries|) &&
    (forall i :: 0 <= i < |lines| ==> lines[i] == IntToString(i + 1) + ". " + entries[i]) &&
    (more.Some? <==> |entries| > 5) &&
    (more.Some? ==> more.value == |entries| - 5)
  }

  /** `enumerate(failed_list[:5], 1)` and the `... и еще N` line. */
  method ErrorLines(entries: seq<string>) returns (lines: seq<string>, more: Option<nat>)
    ensures ListsFirstFive(lines, more, entries)
    ensures |lines| + (if more.Some? then more.value else 0) == |entries|
  {
    var shown := if |entries| <= 5 then entries else entries[..5];
    lines := [];
    var i := 0;
    while i < |shown|
      invariant 0 <= i <= |shown|
      invariant |lines| == i
      invariant forall j :: 0 <= j < i ==> lines[j] == IntToString(j + 1) + ". " + entries[j]
    {
      lines := lines + [IntToString(i + 1) + ". " + shown[i]];
      i := i + 1;
    }
    more := if |entries| > 5 then Some(|entries| - 5) else None;
  }

  /** Each numbered line starts with its 1-based position, up to the first `.`. */
  lemma NumberedLine(lines: seq<string>, more: Option<nat>, entries: seq<string>, i: nat)
    requires ListsFirstFive(lines, more, entries) && i < |lines|
    ensures ParseInt(TakeUntil(lines[i], '.')) == Some(i + 1)
  {
    var number := IntToString(i + 1);
    assert lines[i] == number + ['.'] + (" " + entries[i]);
    IntToStringChars(i + 1, '.');
    TakeUntilFirst(number, '.', " " + entries[i]);
    IntToStringRoundTrip(i + 1);
  }

  /** The final report, without its wording. */
  datatype Report = Report(total: nat, success: nat, failed: nat, errors: seq<string>, more: Option<nat>)

  // ---------------------------------------------------------------- the user list

  /** A profile link by username, or a link by id. */
  datatype UserLink = ProfileLink(username: string) | IdLink(userId: int)

  datatype ListRow = ListRow(position: nat, link: UserLink, subscribed: bool)

  /** What `show_user_list` shows. */
  datatype Listing =
    | EmptyBase
    | Listing(total: nat, rows: seq<ListRow>, more: Option<nat>, active: nat)

  function LinkFor(u: UserRecord): (link: UserLink)
    ensures link.ProfileLink? <==> HasUsername(u)
    ensures link.ProfileLink? ==> link.username == u.username.value
    ensures link.IdLink? ==> link.userId == u.userId
  {
    if HasUsername(u) then ProfileLink(u.username.value) else IdLink(u.userId)
  }

  /**
   * `show_user_list`: the first ten users numbered from 1, how many more
   * there are, and the number of active subscribers.
   */
  method ListUsers(users: seq<UserRecord>) returns (listing: Listing)
    ensures listing.EmptyBase? <==> users == []
    ensures listing.Listing? ==>
              listing.total == |users| &&
              |listing.rows| == Min(10, |users|) &&
              (forall i :: 0 <= i < |listing.rows| ==>
                 listing.rows[i] == ListRow(i + 1, LinkFor(users[i]), users[i].subscribed)) &&
              (listing.more.Some? <==> |users| > 10) &&
              |listing.rows| + (if listing.more.Some? then listing.more.value else 0) == |users| &&
              listing.active == CountSubscribed(users) && listing.active <= listing.total
  {
    if users == [] {
      return EmptyBase;
    }
    var shown := if |users| <= 10 then users else users[..10];
    var rows: seq<ListRow> := [];
    var i := 0;
    while i < |shown|
      invariant 0 <= i <= |shown|
      invariant |rows| == i
      invariant forall j :: 0 <= j < i ==> rows[j] == ListRow(j + 1, LinkFor(users[j]), users[j].subscribed)
    {
      var user := shown[i];
      rows := rows + [ListRow(i + 1, LinkFor(user), user.subscribed)];
      i := i + 1;
    }
    var more := if |users| > 10 then Some(|users| - 10) else None;
    listing := Listing(|users|, rows, more, CountSubscribed(users));
  }

  // ---------------------------------------------------------------- the broadcast session

  /** The state name aiogram stores for `BroadcastStates.waiting_for_message`. */
  const WaitingForMessage: string := "BroadcastStates:waiting_for_message"

  lemma WaitingIsBroadcastState()
    ensures Contains(WaitingForMessage, "BroadcastStates")
  {
    assert StartsWith(WaitingForMessage, "BroadcastStates");
  }

  /** The two buttons of the confirmation prompt, `broadcast_confirm` and `broadcast_cancel`. */
  datatype Choice = ConfirmBroadcast | CancelBroadcast

  /** What a broadcast handler answers. */
  datatype Reply =
    | NotAdmin                                  // the gate refused the caller
    | NoUsers                                   // the button path with an empty user list
    | AwaitingMessage(recipients: nat, active: nat)
    | CommandAccepted(recipients: nat)
    | NothingToCancel                           // `/cancel` with no state
    | BroadcastCancelled
    | NoBroadcastToCancel                       // `/cancel` in a state of another group
    | NotInitiator
    | ConfirmPrompt(recipients: nat, contentType: string, preview: string)
    | Completed(report: Report)

  /**
   * The FSM context the handlers are given: its state and the broadcast keys
   * of its data. `None` is an absent key. Any caller may act on it, whatever
   * key the dispatcher files it under.
   */
  class Session {
    var state: Option<string>
    var adminId: Option<int>
    var startTime: Option<string>
    var messageId: Option<int>
    var chatId: Option<int>
    var info: Option<MessageInfo>

    /**
     * Waiting for a message implies a recorded initiator; a capture stores
     * its id, chat and info together, only for a recorded initiator, and
     * its preview is bounded.
     */
    predicate Valid()
      reads this
    {
      (state == Some(WaitingForMessage) ==> adminId.Some?) &&
      (messageId.Some? <==> chatId.Some?) &&
      (messageId.Some? <==> info.Some?) &&
      (info.Some? ==> adminId.Some? && |info.value.preview| <= 103)
    }

    /** The result of `state.clear()`: no state and no data. */
    predicate Cleared()
      reads this
    {
      state.None? && adminId.None? && startTime.None? &&
      messageId.None? && chatId.None? && info.None?
    }

    /** A session with empty data, possibly in a state set by another part of the bot. */
    constructor(initial: Option<string>)
      requires initial.None? || !Contains(initial.value, "BroadcastStates")
      ensures Valid()
      ensures state == initial
      ensures adminId.None? && startTime.None? && messageId.None? && chatId.None? && info.None?
    {
      if initial.Some? && initial.value == WaitingForMessage {
        WaitingIsBroadcastState();
      }
      state := initial;
      adminId, startTime, messageId, chatId, info := None, None, None, None, None;
    }

    /** `state.clear()`. */
    method Clear()
      modifies this
      ensures Valid() && Cleared()
    {
      state, adminId, startTime := None, None, None;
      messageId, chatId, info := None, None, None;
    }

    /**
     * `admin_broadcast_callback`: an administrator with at least one user in
     * the base becomes the initiator and the session waits for the message;
     * the other data keys are kept, as `update_data` merges.
     */
    method StartFromButton(actor: int, users: seq<UserRecord>, now: string) returns (reply: Reply)
      requires Valid()
      modifies this
      ensures Valid()
      ensures !IsAdmin(actor) ==> reply == NotAdmin
      ensures IsAdmin(actor) && users == [] ==> reply == NoUsers
      ensures IsAdmin(actor) && users != [] ==> reply == AwaitingMessage(|users|, CountSubscribed(users))
      ensures reply.AwaitingMessage? ==>
                state == Some(WaitingForMessage) && adminId == Some(actor) && startTime == Some(now) &&
                messageId == old(messageId) && chatId == old(chatId) && info == old(info)
      ensures !reply.AwaitingMessage? ==> unchanged(this)
    {
      if !IsAdmin(actor) {
        return NotAdmin;
      }
      if users == [] {
        return NoUsers;
      }
      reply := AwaitingMessage(|users|, CountSubscribed(users));
      adminId, startTime := Some(actor), Some(now);
      state := Some(WaitingForMessage);
    }

    /**
     * `cmd_broadcast`: the same as the button, but with no empty-base check
     * and without recording a start time.
     */
    method StartFromCommand(actor: int, users: seq<UserRecord>) returns (reply: Reply)
      requires Valid()
      modifies this
      ensures Valid()
      ensures !IsAdmin(actor) ==> reply == NotAdmin && unchanged(this)
      ensures IsAdmin(actor) ==>
                reply == CommandAccepted(|users|) &&
                state == Some(WaitingForMessage) && adminId == Some(actor) && startTime == old(startTime) &&
                messageId == old(messageId) && chatId == old(chatId) && info == old(info)
    {
      if !IsAdmin(actor) {
        return NotAdmin;
      }
      reply := CommandAccepted(|users|);
      adminId := Some(actor);
      state := Some(WaitingForMessage);
    }

    /**
     * `cancel_broadcast`: with no state nothing changes; a state of the
     * broadcast group is cleared; any other state is left alone.
     */
    method Cancel(actor: int) returns (reply: Reply)
      requires Valid()
      modifies this
      ensures Valid()
      ensures !IsAdmin(actor) ==> reply == NotAdmin && unchanged(this)
      ensures IsAdmin(actor) && old(state).None? ==> reply == NothingToCancel && unchanged(this)
      ensures IsAdmin(actor) && old(state).Some? && Contains(old(state).value, "BroadcastStates") ==>
                reply == BroadcastCancelled && Cleared()
      ensures IsAdmin(actor) && old(state).Some? && !Contains(old(state).value, "BroadcastStates") ==>
                reply == NoBroadcastToCancel && unchanged(this)
    {
      if !IsAdmin(actor) {
        return NotAdmin;
      }
      match state {
        case None =>
          reply := NothingToCancel;
        case Some(current) =>
          if Contains(current, "BroadcastStates") {
            Clear();
            reply := BroadcastCancelled;
          } else {
            reply := NoBroadcastToCancel;
          }
      }
    }

    /**
     * `process_broadcast_message`, dispatched only in `waiting_for_message`:
     * a message from a non-administrator or from anyone but the initiator
     * clears the session; the initiator's message is captured, replacing any
     * earlier capture, and the state stays the same.
     */
    method CaptureMessage(msg: Message, users: seq<UserRecord>) returns (reply: Reply)
      requires Valid() && state == Some(WaitingForMessage)
      modifies this
      ensures Valid()
      ensures !IsAdmin(msg.sender) ==> reply == NotAdmin && Cleared()
      ensures IsAdmin(msg.sender) && old(adminId) != Some(msg.sender) ==> reply == NotInitiator && Cleared()
      ensures IsAdmin(msg.sender) && old(adminId) == Some(msg.sender) ==>
                reply == ConfirmPrompt(|users|, msg.contentType, Info(msg).preview) &&
                state == old(state) && adminId == old(adminId) && startTime == old(startTime) &&
                messageId == Some(msg.messageId) && chatId == Some(msg.chatId) && info == Some(Info(msg))
    {
      if !IsAdmin(msg.sender) {
        Clear();
        return NotAdmin;
      }
      if adminId != Some(msg.sender) {
        Clear();
        return NotInitiator;
      }
      var captured := Info(msg);
      messageId, chatId, info := Some(msg.messageId), Some(msg.chatId), Some(captured);
      reply := ConfirmPrompt(|users|, msg.contentType, captured.preview);
    }

    /**
     * `broadcast_confirmation`: cancelling clears the session whoever presses
     * it; confirming by anyone but the recorded initiator (including when
     * none is recorded) changes nothing; a confirmed run copies the captured
     * message to every user, reports, and clears the session.
     */
    method Confirm(actor: int, choice: Choice, users: seq<UserRecord>, deliver: (nat, CopyRequest) -> SendOutcome)
      returns (reply: Reply)
      requires Valid()
      modifies this
      ensures Valid()
      ensures !IsAdmin(actor) ==> reply == NotAdmin && unchanged(this)
      ensures IsAdmin(actor) && choice == CancelBroadcast ==> reply == BroadcastCancelled && Cleared()
      ensures IsAdmin(actor) && choice == ConfirmBroadcast && old(adminId) != Some(actor) ==>
                reply == NotInitiator && unchanged(this)
      ensures IsAdmin(actor) && choice == ConfirmBroadcast && old(adminId) == Some(actor) ==>
                reply.Completed? && Cleared() &&
                reply.report.total == |users| &&
                reply.report.success + reply.report.failed == |users| &&
                reply.report.success == SuccessCount(Outcomes(users, old(chatId), old(messageId), deliver), |users|) &&
                ListsFirstFive(reply.report.errors, reply.report.more,
                               Entries(FailedAttempts(users, Outcomes(users, old(chatId), old(messageId), deliver), |users|))) &&
                reply.report.failed == |FailedAttempts(users, Outcomes(users, old(chatId), old(messageId), deliver), |users|)|
    {
      if !IsAdmin(actor) {
        return NotAdmin;
      }
      if choice == CancelBroadcast {
        Clear();
        return BroadcastCancelled;
      }
      if adminId != Some(actor) {
        return NotInitiator;
      }
      var success, failed, failedList := FanOut(users, chatId, messageId, deliver);
      var lines, more := ErrorLines(failedList);
      reply := Completed(Report(|users|, success, failed, lines, more));
      Clear();
    }
  }
}
