// `messages.controller.js`: the privacy rule for writing to a user, dialogs
// found or created per pair of users, the per-member unread counters that
// sending, reading and deleting keep, the edit rule, and the cascade that
// deletes a dialog.

module Messages {
  import opened Wrappers
  import opened Text
  import opened Social
  import Users
  import Profile
  import opened Seqs

  /** A `DialogMember` row's key: the table's primary key is the pair. */
  datatype Seat = Seat(dialogId: string, userId: string)

  /** The rest of a `DialogMember` row; times are milliseconds. */
  datatype Member = Member(unreadCount: int, lastReadAt: Option<int>)

  datatype Message = Message(dialogId: string, senderId: string, text: Option<string>, sharedPostId: Option<string>,
                             createdAt: int)

  /** The tables the handlers write; `dialogs` lists dialog ids in the order they were created. */
  datatype Chat = Chat(dialogs: seq<string>, members: map<Seat, Member>, messages: map<string, Message>,
                       notices: map<string, Notice>)

  /**
   * The tables `sendMessage` only reads: user ids by public id, follow and
   * blacklist edges, `allowMessages` of users with a privacy row, post ids.
   */
  datatype Directory = Directory(users: map<string, string>, follows: set<Edge>, blocks: set<Edge>,
                                 allowMessages: map<string, string>, posts: set<string>)

  /** `privacy?.allowMessages ?? 'ALL'` */
  function AllowOf(d: Directory, user: string): Option<string> {
    if user in d.allowMessages then Some(d.allowMessages[user]) else None
  }

  /** `canMessage(fromId, toUser)` */
  predicate CanMessage(allow: Option<string>, from: string, to: string, follows: set<Edge>) {
    var a := allow.GetOr("ALL");
    if a == "NONE" then false
    else if a == "ALL" then true
    else if a == "FOLLOWERS" then Edge(from, to) in follows
    else if a == "MUTUAL" then Edge(from, to) in follows && Edge(to, from) in follows
    else false
  }

  /**
   * The rule by setting: no privacy row allows, 'FOLLOWERS' asks the sender
   * to follow the receiver, 'MUTUAL' asks both directions, and any value
   * other than the four forbids.
   */
  lemma CanMessageCases(allow: Option<string>, from: string, to: string, follows: set<Edge>)
    ensures allow.None? ==> CanMessage(allow, from, to, follows)
    ensures allow.Some? ==> (CanMessage(allow, from, to, follows) <==>
      match allow.value
      case "ALL" => true
      case "FOLLOWERS" => Edge(from, to) in follows
      case "MUTUAL" => Edge(from, to) in follows && Edge(to, from) in follows
      case _ => false)
  {
  }

  /**
   * Against the profile card's `canMessageByPrivacy`, for a viewer writing to
   * the card's owner: the two agree on a missing row, 'ALL', 'NONE' and
   * 'MUTUAL'; on 'FOLLOWERS' the card asks the owner to follow the viewer
   * where sending asks the viewer to follow the owner; and a value outside
   * the four, the empty string included, forbids sending but shows as allowed.
   */
  lemma CanMessageVersusCard(viewer: string, owner: string, follows: set<Edge>, allow: Option<string>)
    requires viewer != owner
    ensures var am := Edge(viewer, owner) in follows;
      var fm := Edge(owner, viewer) in follows;
      var card := Profile.CanMessageByPrivacy(Profile.AllowMessagesOf(allow), false, am, fm);
      && (allow.None? || allow.value in {"ALL", "NONE", "MUTUAL"} ==> CanMessage(allow, viewer, owner, follows) == card)
      && (allow == Some("FOLLOWERS") ==> (CanMessage(allow, viewer, owner, follows) <==> am) && (card <==> fm))
      && (allow.Some? && allow.value !in {"ALL", "NONE", "MUTUAL", "FOLLOWERS"} ==> !CanMessage(allow, viewer, owner, follows) && card)
  {
  }

  /** The first dialog, in creation order, in which both users have a seat. */
  function SharedDialog(dialogs: seq<string>, members: map<Seat, Member>, a: string, b: string): (r: Option<string>)
    ensures r.Some? ==> r.value in dialogs && Seat(r.value, a) in members && Seat(r.value, b) in members
    decreases |dialogs|
  {
    if dialogs == [] then None
    else if Seat(dialogs[0], a) in members && Seat(dialogs[0], b) in members then Some(dialogs[0])
    else SharedDialog(dialogs[1..], members, a, b)
  }

  /** No shared dialog is reported only when none of the listed dialogs has both users. */
  lemma {:induction false} SharedDialogNone(dialogs: seq<string>, members: map<Seat, Member>, a: string, b: string, d: string)
    requires SharedDialog(dialogs, members, a, b).None? && d in dialogs
    ensures !(Seat(d, a) in members && Seat(d, b) in members)
    decreases |dialogs|
  {
    if dialogs[0] != d {
      SharedDialogNone(dialogs[1..], members, a, b, d);
    }
  }

  /** Every seat and every message belongs to a listed dialog, listed once, and no counter is negative. */
  ghost predicate Valid(c: Chat) {
    && Distinct(c.dialogs)
    && (forall s :: s in c.members ==> s.dialogId in c.dialogs && c.members[s].unreadCount >= 0)
    && (forall m :: m in c.messages ==> c.messages[m].dialogId in c.dialogs)
  }

  /** `findOrCreateDialog` on a valid store: an existing shared dialog is found whenever there is one. */
  lemma SharedDialogComplete(c: Chat, a: string, b: string, d: string)
    requires Valid(c) && Seat(d, a) in c.members && Seat(d, b) in c.members
    ensures SharedDialog(c.dialogs, c.members, a, b).Some?
  {
    if SharedDialog(c.dialogs, c.members, a, b).None? {
      SharedDialogNone(c.dialogs, c.members, a, b, d);
    }
  }

  /** `payload.text?.trim() || null` */
  function StoredText(text: Option<string>): (r: Option<string>)
    ensures r.Some? ==> text.Some? && r.value == Trim(text.value) && r.value != ""
    ensures r.None? ==> text.None? || Trim(text.value) == ""
  {
    if text.Some? && Trim(text.value) != "" then Some(Trim(text.value)) else None
  }

  /** A message shows something: a text that is not blank, or a shared post. */
  predicate HasContent(m: Message) {
    (m.text.Some? && Trim(m.text.value) != "") || m.sharedPostId.Some?
  }

  /** Trimming keeps a non-blank text non-blank. */
  lemma TrimKeepsContent(s: string)
    requires Trim(s) != ""
    ensures Trim(Trim(s)) != ""
  {
    var t := Trim(s);
    assert !IsSpace(t[0]);
  }

  /**
   * `sendMessage`: the schema (500 when it fails), then 404 for an unknown
   * receiver, 409 for oneself, 403 for a blacklist row or the receiver's
   * privacy, 404 for a missing shared post. The message goes into the
   * pair's dialog, created with both members at zero unread when there is
   * none, and only the receiver's counter goes up. The clock is read
   * twice: `openedAt` is the `lastReadAt` of both seats of a new dialog,
   * `now` the message's `createdAt`, stamped later.
   */
  function Send(c: Chat, d: Directory, me: string, toPublicId: string, text: Option<string>, sharedPostId: Option<string>,
                newDialogId: string, newMessageId: string, openedAt: int, now: int): (r: (int, Chat))
    ensures r.0 != Created ==> r.1 == c
    ensures r.0 == Created ==> && toPublicId in d.users && d.users[toPublicId] != me
                               && !BlockedEitherWay(d.blocks, me, d.users[toPublicId])
                               && CanMessage(AllowOf(d, d.users[toPublicId]), me, d.users[toPublicId], d.follows)
                               && (sharedPostId.Some? ==> sharedPostId.value in d.posts)
    ensures r.0 == Created ==> && newMessageId !in c.messages && newMessageId in r.1.messages
                               && r.1.messages == c.messages[newMessageId := r.1.messages[newMessageId]]
                               && r.1.messages[newMessageId].senderId == me
                               && r.1.messages[newMessageId].text == StoredText(text)
                               && r.1.messages[newMessageId].sharedPostId == sharedPostId
                               && r.1.messages[newMessageId].createdAt == now
                               && HasContent(r.1.messages[newMessageId])
  {
    if !(8 <= |toPublicId| <= 16) || (text.Some? && |text.value| > 5000) then (ServerError, c)
    else if !((text.Some? && Trim(text.value) != "") || sharedPostId.Some?) then (ServerError, c)
    else if toPublicId !in d.users then (NotFound, c)
    else
      var to := d.users[toPublicId];
      if to == me then (Conflict, c)
      else if BlockedEitherWay(d.blocks, me, to) then (Forbidden, c)
      else if !CanMessage(AllowOf(d, to), me, to, d.follows) then (Forbidden, c)
      else if sharedPostId.Some? && sharedPostId.value !in d.posts then (NotFound, c)
      else if newMessageId in c.messages then (ServerError, c)
      else match SharedDialog(c.dialogs, c.members, me, to)
        case Some(dialogId) =>
          (Created, Posted(c, dialogId, me, to, text, sharedPostId, newMessageId, now))
        case None =>
          if newDialogId in c.dialogs then (ServerError, c)
          else
            var started := Opened(c, newDialogId, me, to, openedAt);
            (Created, Posted(started, newDialogId, me, to, text, sharedPostId, newMessageId, now))
  }

  /** A new dialog with both users seated, nothing unread, both read as of `openedAt`. */
  function Opened(c: Chat, dialogId: string, a: string, b: string, openedAt: int): Chat {
    c.(dialogs := c.dialogs + [dialogId],
       members := c.members[Seat(dialogId, a) := Member(0, Some(openedAt))][Seat(dialogId, b) := Member(0, Some(openedAt))])
  }

  /** The message row and the receiver's `unread_count + 1`. */
  function Posted(c: Chat, dialogId: string, me: string, to: string, text: Option<string>, sharedPostId: Option<string>,
                  messageId: string, now: int): Chat
    requires Seat(dialogId, to) in c.members
  {
    var seat := Seat(dialogId, to);
    c.(messages := c.messages[messageId := Message(dialogId, me, StoredText(text), sharedPostId, now)],
       members := c.members[seat := c.members[seat].(unreadCount := c.members[seat].unreadCount + 1)])
  }

  /** A new dialog seats exactly the two users, with nothing unread, and keeps the store valid. */
  lemma OpenedFacts(c: Chat, dialogId: string, a: string, b: string, openedAt: int)
    requires Valid(c) && dialogId !in c.dialogs
    ensures var o := Opened(c, dialogId, a, b, openedAt);
      && Valid(o) && o.messages == c.messages
      && Seat(dialogId, a) !in c.members && Seat(dialogId, b) !in c.members
      && o.members[Seat(dialogId, a)].unreadCount == 0 && o.members[Seat(dialogId, b)].unreadCount == 0
      && (forall s :: s in o.members && s.dialogId == dialogId ==> s.userId == a || s.userId == b)
      && (forall s :: s in c.members ==> s in o.members && o.members[s] == c.members[s])
  {
    var o := Opened(c, dialogId, a, b, openedAt);
    forall i, j | 0 <= i < j < |o.dialogs| ensures o.dialogs[i] != o.dialogs[j] {
      assert o.dialogs[i] == c.dialogs[i];
    }
  }

  /** Posting bumps the receiver's counter by one, touches no other seat, and keeps the store valid. */
  lemma PostedFacts(c: Chat, dialogId: string, me: string, to: string, text: Option<string>, sharedPostId: Option<string>,
                    messageId: string, now: int)
    requires Valid(c) && Seat(dialogId, to) in c.members
    ensures var p := Posted(c, dialogId, me, to, text, sharedPostId, messageId, now);
      && Valid(p) && p.members.Keys == c.members.Keys
      && p.members[Seat(dialogId, to)].unreadCount == c.members[Seat(dialogId, to)].unreadCount + 1
      && (forall s :: s in c.members && s != Seat(dialogId, to) ==> p.members[s] == c.members[s])
      && p.messages[messageId].dialogId == dialogId
  {
  }

  /**
   * A sent message lands in a dialog of exactly the two users: the one they
   * already share, or a new one where the sender has nothing unread and the
   * receiver one message. The receiver's counter goes up by one and no other
   * counter moves. Validity is kept.
   */
  lemma SendCounts(c: Chat, d: Directory, me: string, toPublicId: string, text: Option<string>, sharedPostId: Option<string>,
                   newDialogId: string, newMessageId: string, openedAt: int, now: int)
    requires Valid(c)
    ensures var r := Send(c, d, me, toPublicId, text, sharedPostId, newDialogId, newMessageId, openedAt, now);
      r.0 == Created ==>
        var to := d.users[toPublicId];
        var dialog := r.1.messages[newMessageId].dialogId;
        && Seat(dialog, me) in r.1.members && Seat(dialog, to) in r.1.members
        && (Seat(dialog, to) in c.members ==> r.1.members[Seat(dialog, to)].unreadCount == c.members[Seat(dialog, to)].unreadCount + 1)
        && (Seat(dialog, to) !in c.members ==> (&& r.1.members[Seat(dialog, to)].unreadCount == 1
                                                && r.1.members[Seat(dialog, me)].unreadCount == 0))
        && (forall s :: s in c.members && s != Seat(dialog, to) ==> s in r.1.members && r.1.members[s] == c.members[s])
  {
    var r := Send(c, d, me, toPublicId, text, sharedPostId, newDialogId, newMessageId, openedAt, now);
    if r.0 == Created {
      var to := d.users[toPublicId];
      match SharedDialog(c.dialogs, c.members, me, to)
      case Some(dialogId) =>
        assert r.1 == Posted(c, dialogId, me, to, text, sharedPostId, newMessageId, now);
        PostedFacts(c, dialogId, me, to, text, sharedPostId, newMessageId, now);
      case None =>
        var o := Opened(c, newDialogId, me, to, openedAt);
        assert r.1 == Posted(o, newDialogId, me, to, text, sharedPostId, newMessageId, now);
        OpenedFacts(c, newDialogId, me, to, openedAt);
        PostedFacts(o, newDialogId, me, to, text, sharedPostId, newMessageId, now);
    }
  }

  /**
   * The first message of a freshly opened dialog, deleted before the
   * receiver reads it: the receiver's counter goes back to zero when the
   * message was stamped after the dialog was opened, and stays at one when
   * both clock readings fell on the same millisecond.
   */
  lemma DeleteFirstMessageOfNewDialog(c: Chat, d: Directory, me: string, toPublicId: string, text: Option<string>,
                                      sharedPostId: Option<string>, newDialogId: string, newMessageId: string,
                                      openedAt: int, now: int)
    requires Valid(c) && IsUuid(newMessageId) && openedAt <= now
    requires var r := Send(c, d, me, toPublicId, text, sharedPostId, newDialogId, newMessageId, openedAt, now);
      && r.0 == Created && Seat(r.1.messages[newMessageId].dialogId, d.users[toPublicId]) !in c.members
    ensures var r := Send(c, d, me, toPublicId, text, sharedPostId, newDialogId, newMessageId, openedAt, now);
      var seat := Seat(r.1.messages[newMessageId].dialogId, d.users[toPublicId]);
      var deleted := DeleteMessage(r.1, me, newMessageId);
      && r.1.members[seat].unreadCount == 1
      && deleted.0 == Ok
      && (openedAt < now ==> deleted.1.members[seat].unreadCount == 0)
      && (openedAt == now ==> deleted.1.members[seat].unreadCount == 1)
  {
    var to := d.users[toPublicId];
    SendStore(c, d, me, toPublicId, text, sharedPostId, newDialogId, newMessageId, openedAt, now);
    if SharedDialog(c.dialogs, c.members, me, to).Some? {
      assert false;
    }
    DeleteFromNewDialog(c, newDialogId, me, to, text, sharedPostId, newMessageId, openedAt, now);
  }

  /** Deleting the only message posted into a dialog just opened for the two users. */
  lemma DeleteFromNewDialog(c: Chat, dialogId: string, me: string, to: string, text: Option<string>,
                            sharedPostId: Option<string>, messageId: string, openedAt: int, now: int)
    requires me != to && IsUuid(messageId)
    ensures var p := Posted(Opened(c, dialogId, me, to, openedAt), dialogId, me, to, text, sharedPostId, messageId, now);
      var deleted := DeleteMessage(p, me, messageId);
      && p.members[Seat(dialogId, to)].unreadCount == 1
      && deleted.0 == Ok
      && (openedAt < now ==> deleted.1.members[Seat(dialogId, to)].unreadCount == 0)
      && (openedAt >= now ==> deleted.1.members[Seat(dialogId, to)].unreadCount == 1)
  {
    var p := Posted(Opened(c, dialogId, me, to, openedAt), dialogId, me, to, text, sharedPostId, messageId, now);
    var seat := Seat(dialogId, to);
    var m := Message(dialogId, me, StoredText(text), sharedPostId, now);
    assert p.members[seat] == Member(1, Some(openedAt));
    assert p.messages[messageId] == m;
    assert Seat(dialogId, me) in p.members;
    DeleteBySender(p, me, messageId);
    UncountOne(p.members, m, seat, openedAt);
  }

  /** A member with one unread message and a read mark, when that message is deleted. */
  lemma UncountOne(members: map<Seat, Member>, m: Message, seat: Seat, openedAt: int)
    requires seat in members && members[seat] == Member(1, Some(openedAt))
    requires seat.dialogId == m.dialogId && seat.userId != m.senderId
    ensures openedAt < m.createdAt ==> Uncounted(members, m)[seat].unreadCount == 0
    ensures openedAt >= m.createdAt ==> Uncounted(members, m)[seat].unreadCount == 1
  {
  }

  /** The sender, seated in the message's dialog, deletes it: only the counters and tables of `DeleteMessage` move. */
  lemma DeleteBySender(c: Chat, me: string, id: string)
    requires IsUuid(id) && id in c.messages && c.messages[id].senderId == me && Seat(c.messages[id].dialogId, me) in c.members
    ensures DeleteMessage(c, me, id).0 == Ok
    ensures DeleteMessage(c, me, id).1.members == Uncounted(c.members, c.messages[id])
  {
  }

  /** The store a successful send leaves, by whether the pair already shares a dialog. */
  lemma SendStore(c: Chat, d: Directory, me: string, toPublicId: string, text: Option<string>,
                  sharedPostId: Option<string>, newDialogId: string, newMessageId: string, openedAt: int, now: int)
    requires Send(c, d, me, toPublicId, text, sharedPostId, newDialogId, newMessageId, openedAt, now).0 == Created
    ensures var r := Send(c, d, me, toPublicId, text, sharedPostId, newDialogId, newMessageId, openedAt, now);
      var to := d.users[toPublicId];
      match SharedDialog(c.dialogs, c.members, me, to)
      case Some(dialogId) =>
        Seat(dialogId, to) in c.members && r.1 == Posted(c, dialogId, me, to, text, sharedPostId, newMessageId, now)
      case None =>
        && newDialogId !in c.dialogs
        && r.1 == Posted(Opened(c, newDialogId, me, to, openedAt), newDialogId, me, to, text, sharedPostId, newMessageId, now)
  {
  }

  /** Sending keeps the store valid, whether it fails, posts into a shared dialog or opens one. */
  lemma SendKeepsValid(c: Chat, d: Directory, me: string, toPublicId: string, text: Option<string>, sharedPostId: Option<string>,
                       newDialogId: string, newMessageId: string, openedAt: int, now: int)
    requires Valid(c)
    ensures Valid(Send(c, d, me, toPublicId, text, sharedPostId, newDialogId, newMessageId, openedAt, now).1)
  {
    var r := Send(c, d, me, toPublicId, text, sharedPostId, newDialogId, newMessageId, openedAt, now);
    if r.0 == Created {
      var to := d.users[toPublicId];
      match SharedDialog(c.dialogs, c.members, me, to)
      case Some(dialogId) =>
        assert r.1 == Posted(c, dialogId, me, to, text, sharedPostId, newMessageId, now);
        PostedFacts(c, dialogId, me, to, text, sharedPostId, newMessageId, now);
      case None =>
        var o := Opened(c, newDialogId, me, to, openedAt);
        assert r.1 == Posted(o, newDialogId, me, to, text, sharedPostId, newMessageId, now);
        OpenedFacts(c, newDialogId, me, to, openedAt);
        PostedFacts(o, newDialogId, me, to, text, sharedPostId, newMessageId, now);
    }
  }

  /** `markRead`: the caller's counter goes to zero and the read mark to now. */
  function MarkRead(c: Chat, me: string, dialogId: string, now: int): (r: (int, Chat))
    ensures r.0 in {Ok, BadRequest, NotFound}
    ensures r.0 != Ok ==> r.1 == c
    ensures r.0 == Ok <==> IsUuid(dialogId) && Seat(dialogId, me) in c.members
    ensures r.1.members.Keys == c.members.Keys && r.1.messages == c.messages && r.1.dialogs == c.dialogs
    ensures r.0 == Ok ==> r.1.members[Seat(dialogId, me)] == Member(0, Some(now))
    ensures forall s :: s in c.members && s != Seat(dialogId, me) ==> r.1.members[s] == c.members[s]
  {
    if !IsUuid(dialogId) then (BadRequest, c)
    else if Seat(dialogId, me) !in c.members then (NotFound, c)
    else (Ok, c.(members := c.members[Seat(dialogId, me) := Member(0, Some(now))]))
  }

  /** Reading keeps the store valid. */
  lemma MarkReadKeepsValid(c: Chat, me: string, dialogId: string, now: int)
    requires Valid(c)
    ensures Valid(MarkRead(c, me, dialogId, now).1)
  {
  }

  /**
   * The text an edit leaves: an absent field keeps the old text, null or a
   * blank text clears it, anything else is stored trimmed.
   */
  function EditedText(current: Option<string>, patch: Users.Field): (r: Option<string>)
    ensures patch.Undefined? ==> r == current
    ensures patch.Null? ==> r == None
    ensures patch.Given? ==> r == StoredText(Some(patch.value))
  {
    match patch
    case Undefined => current
    case Null => None
    case Given(t) => StoredText(Some(t))
  }

  /**
   * `editMessage`. The schema's refinement accepts only null or a string,
   * so a body without `text` fails the parse (500) before the
   * keep-the-old-text branch is reached.
   */
  function Edit(c: Chat, me: string, id: string, patch: Users.Field): (r: (int, Chat))
    ensures r.0 != Ok ==> r.1 == c
    ensures patch.Undefined? ==> r.0 in {BadRequest, ServerError}
    ensures r.0 == Ok ==> && id in c.messages && c.messages[id].senderId == me
                          && Seat(c.messages[id].dialogId, me) in c.members
                          && r.1 == c.(messages := c.messages[id := c.messages[id].(text := EditedText(c.messages[id].text, patch))])
                          && HasContent(r.1.messages[id])
  {
    if !IsUuid(id) then (BadRequest, c)
    else if patch.Undefined? || (patch.Given? && |patch.value| > 5000) then (ServerError, c)
    else if id !in c.messages then (NotFound, c)
    else
      var m := c.messages[id];
      if m.senderId != me then (Forbidden, c)
      else if Seat(m.dialogId, me) !in c.members then (NotFound, c)
      else
        var t := EditedText(m.text, patch);
        if m.sharedPostId.None? && (t.None? || Trim(t.value) == "") then (BadRequest, c)
        else (Ok, c.(messages := c.messages[id := m.(text := t)]))
  }

  /**
   * Only the sender edits; clearing the text of a message without a shared
   * post is refused, while a message with one may lose its text.
   */
  lemma EditRules(c: Chat, me: string, id: string)
    requires IsUuid(id) && id in c.messages && Seat(c.messages[id].dialogId, me) in c.members
    ensures c.messages[id].senderId != me ==> Edit(c, me, id, Users.Null).0 == Forbidden
    ensures c.messages[id].senderId == me && c.messages[id].sharedPostId.None? ==> Edit(c, me, id, Users.Null).0 == BadRequest
    ensures c.messages[id].senderId == me && c.messages[id].sharedPostId.Some? ==>
      Edit(c, me, id, Users.Null).0 == Ok && Edit(c, me, id, Users.Null).1.messages[id].text == None
  {
  }

  /** `!lastRead || lastRead < msg.createdAt`, and a positive counter: the member's count drops by one. */
  function Decremented(m: Member, sentAt: int): (r: Member)
    ensures r.lastReadAt == m.lastReadAt
    ensures m.unreadCount - 1 <= r.unreadCount <= m.unreadCount
    ensures m.unreadCount >= 0 ==> r.unreadCount >= 0
  {
    if (m.lastReadAt.None? || m.lastReadAt.value < sentAt) && m.unreadCount > 0 then m.(unreadCount := m.unreadCount - 1)
    else m
  }

  /** The counters after `msg` is deleted: every other member of its dialog for whom it was unread. */
  function Uncounted(members: map<Seat, Member>, msg: Message): (r: map<Seat, Member>)
    ensures r.Keys == members.Keys
  {
    map s | s in members :: if s.dialogId == msg.dialogId && s.userId != msg.senderId then Decremented(members[s], msg.createdAt) else members[s]
  }

  /** The notifications left once the MESSAGE notifications about `ids` are destroyed. */
  function DropMessageNotices(notices: map<string, Notice>, ids: set<string>): (r: map<string, Notice>)
    ensures forall n :: n in r <==> n in notices && !(notices[n].kind == "MESSAGE" && notices[n].entityId in ids)
    ensures forall n :: n in r ==> r[n] == notices[n]
  {
    map n | n in notices && !(notices[n].kind == "MESSAGE" && notices[n].entityId in ids) :: notices[n]
  }

  /** `deleteMessage`: the sender alone; its MESSAGE notifications go with it. */
  function DeleteMessage(c: Chat, me: string, id: string): (r: (int, Chat))
    ensures r.0 in {Ok, BadRequest, NotFound, Forbidden}
    ensures r.0 != Ok ==> r.1 == c
    ensures r.0 == Ok <==> IsUuid(id) && id in c.messages && c.messages[id].senderId == me
                           && Seat(c.messages[id].dialogId, me) in c.members
    ensures r.0 == Ok ==> && r.1.dialogs == c.dialogs && r.1.members == Uncounted(c.members, c.messages[id])
                          && r.1.messages == c.messages - {id}
                          && (forall n :: n in r.1.notices <==> n in c.notices && !(c.notices[n].kind == "MESSAGE" && c.notices[n].entityId == id))
  {
    if !IsUuid(id) then (BadRequest, c)
    else if id !in c.messages then (NotFound, c)
    else
      var m := c.messages[id];
      if m.senderId != me then (Forbidden, c)
      else if Seat(m.dialogId, me) !in c.members then (NotFound, c)
      else (Ok, Chat(c.dialogs, Uncounted(c.members, m), c.messages - {id}, DropMessageNotices(c.notices, {id})))
  }

  /**
   * Deleting a message lowers a counter by at most one, only for the other
   * members of its dialog, never below zero, and the sender's own counter
   * never moves.
   */
  lemma DeleteMessageCounts(c: Chat, me: string, id: string)
    requires Valid(c)
    ensures var r := DeleteMessage(c, me, id);
      && Valid(r.1)
      && (forall s :: s in c.members ==> s in r.1.members && c.members[s].unreadCount - 1 <= r.1.members[s].unreadCount <= c.members[s].unreadCount)
      && (r.0 == Ok ==> forall s :: s in c.members && (s.dialogId != c.messages[id].dialogId || s.userId == me)
                                    ==> r.1.members[s] == c.members[s])
  {
  }

  /** The messages of a dialog. */
  function MessagesOf(c: Chat, dialogId: string): set<string> {
    set k | k in c.messages && c.messages[k].dialogId == dialogId
  }

  /** `deleteDialog`: any member may delete it, for both; its messages, their notifications and its seats go. */
  function DeleteDialog(c: Chat, me: string, dialogId: string): (r: (int, Chat))
    ensures r.0 in {Ok, BadRequest, NotFound}
    ensures r.0 != Ok ==> r.1 == c
    ensures r.0 == Ok <==> IsUuid(dialogId) && Seat(dialogId, me) in c.members
  {
    if !IsUuid(dialogId) then (BadRequest, c)
    else if Seat(dialogId, me) !in c.members then (NotFound, c)
    else
      var gone := MessagesOf(c, dialogId);
      (Ok, Chat(Without(c.dialogs, dialogId),
                map s | s in c.members && s.dialogId != dialogId :: c.members[s],
                map k | k in c.messages && k !in gone :: c.messages[k],
                DropMessageNotices(c.notices, gone)))
  }

  /**
   * After a dialog is deleted nothing of it is left: no listing, seat,
   * message or notification of one of its messages; other dialogs keep
   * everything; the store stays valid.
   */
  lemma DeleteDialogClears(c: Chat, me: string, dialogId: string)
    requires Valid(c)
    ensures var r := DeleteDialog(c, me, dialogId);
      && Valid(r.1)
      && (r.0 == Ok ==> && dialogId !in r.1.dialogs
                        && (forall s :: s in r.1.members ==> s.dialogId != dialogId)
                        && (forall k :: k in r.1.messages ==> r.1.messages[k].dialogId != dialogId)
                        && (forall n :: n in r.1.notices && r.1.notices[n].kind == "MESSAGE" ==> r.1.notices[n].entityId !in MessagesOf(c, dialogId))
                        && (forall s :: s in c.members && s.dialogId != dialogId ==> s in r.1.members && r.1.members[s] == c.members[s])
                        && (forall k :: k in c.messages && c.messages[k].dialogId != dialogId ==> k in r.1.messages))
  {
    WithoutDistinct(c.dialogs, dialogId);
  }

  /** The dialog tables, edited in place by the handlers. */
  class Inbox {
    var dialogs: seq<string>
    var members: map<Seat, Member>
    var messages: map<string, Message>
    var notices: map<string, Notice>

    function State(): Chat
      reads this
    {
      Chat(dialogs, members, messages, notices)
    }

    constructor (c: Chat)
      ensures State() == c
    {
      dialogs := c.dialogs;
      members := c.members;
      messages := c.messages;
      notices := c.notices;
    }

    method SendMessage(d: Directory, me: string, toPublicId: string, text: Option<string>, sharedPostId: Option<string>,
                       newDialogId: string, newMessageId: string, openedAt: int, now: int) returns (code: int)
      modifies this
      ensures (code, State()) == Send(old(State()), d, me, toPublicId, text, sharedPostId, newDialogId, newMessageId, openedAt, now)
    {
      if !(8 <= |toPublicId| <= 16) || (text.Some? && |text.value| > 5000) {
        return ServerError;
      }
      if !((text.Some? && Trim(text.value) != "") || sharedPostId.Some?) {
        return ServerError;
      }
      if toPublicId !in d.users {
        return NotFound;
      }
      var to := d.users[toPublicId];
      if to == me {
        return Conflict;
      }
      if Edge(me, to) in d.blocks || Edge(to, me) in d.blocks {
        return Forbidden;
      }
      if !CanMessage(AllowOf(d, to), me, to, d.follows) {
        return Forbidden;
      }
      if sharedPostId.Some? && sharedPostId.value !in d.posts {
        return NotFound;
      }
      if newMessageId in messages {
        return ServerError;
      }
      var dialogId;
      var shared := SharedDialog(dialogs, members, me, to);
      if shared.Some? {
        dialogId := shared.value;
      } else {
        if newDialogId in dialogs {
          return ServerError;
        }
        dialogId := newDialogId;
        OpenDialog(dialogId, me, to, openedAt);
      }
      Post(dialogId, me, to, text, sharedPostId, newMessageId, now);
      code := Created;
    }

    /** The `Dialog.create` and `DialogMember.bulkCreate` of `findOrCreateDialog`. */
    method OpenDialog(dialogId: string, a: string, b: string, openedAt: int)
      modifies this
      ensures State() == Opened(old(State()), dialogId, a, b, openedAt)
    {
      dialogs := dialogs + [dialogId];
      members := members[Seat(dialogId, a) := Member(0, Some(openedAt))][Seat(dialogId, b) := Member(0, Some(openedAt))];
    }

    /** `Message.create` and the receiver's `unread_count + 1`. */
    method Post(dialogId: string, me: string, to: string, text: Option<string>, sharedPostId: Option<string>,
                messageId: string, now: int)
      requires Seat(dialogId, to) in members
      modifies this
      ensures State() == Posted(old(State()), dialogId, me, to, text, sharedPostId, messageId, now)
    {
      var seat := Seat(dialogId, to);
      var m := members[seat];
      var msg := Message(dialogId, me, StoredText(text), sharedPostId, now);
      messages := messages[messageId := msg];
      members := members[seat := m.(unreadCount := m.unreadCount + 1)];
    }

    method Read(me: string, dialogId: string, now: int) returns (code: int)
      modifies this
      ensures (code, State()) == MarkRead(old(State()), me, dialogId, now)
    {
      if !IsUuid(dialogId) {
        return BadRequest;
      }
      if Seat(dialogId, me) !in members {
        return NotFound;
      }
      members := members[Seat(dialogId, me) := Member(0, Some(now))];
      code := Ok;
    }

    method EditMessage(me: string, id: string, patch: Users.Field) returns (code: int)
      modifies this
      ensures (code, State()) == Edit(old(State()), me, id, patch)
    {
      if !IsUuid(id) {
        return BadRequest;
      }
      if patch.Undefined? || (patch.Given? && |patch.value| > 5000) {
        return ServerError;
      }
      if id !in messages {
        return NotFound;
      }
      var m := messages[id];
      if m.senderId != me {
        return Forbidden;
      }
      if Seat(m.dialogId, me) !in members {
        return NotFound;
      }
      var t := EditedText(m.text, patch);
      if m.sharedPostId.None? && (t.None? || Trim(t.value) == "") {
        return BadRequest;
      }
      messages := messages[id := m.(text := t)];
      code := Ok;
    }

    /** The `for (const m of members)` loop, one seat of the message's dialog at a time. */
    method Remove(me: string, id: string) returns (code: int)
      modifies this
      ensures (code, State()) == DeleteMessage(old(State()), me, id)
    {
      if !IsUuid(id) {
        return BadRequest;
      }
      if id !in messages {
        return NotFound;
      }
      var msg := messages[id];
      if msg.senderId != me {
        return Forbidden;
      }
      if Seat(msg.dialogId, me) !in members {
        return NotFound;
      }
      ghost var before := members;
      var todo := set s | s in members && s.dialogId == msg.dialogId;
      while todo != {}
        invariant todo <= before.Keys
        invariant forall t :: t in todo ==> t.dialogId == msg.dialogId
        invariant members.Keys == before.Keys
        invariant dialogs == old(dialogs) && messages == old(messages) && notices == old(notices)
        invariant forall s :: s in members ==>
          members[s] == if s in todo then before[s] else Uncounted(before, msg)[s]
        decreases |todo|
      {
        var s :| s in todo;
        ghost var target := Uncounted(before, msg)[s];
        assert members[s] == before[s];
        if s.userId != msg.senderId {
          var m := members[s];
          var unread := m.lastReadAt.None? || m.lastReadAt.value < msg.createdAt;
          if unread && m.unreadCount > 0 {
            members := members[s := m.(unreadCount := m.unreadCount - 1)];
          }
        }
        assert members[s] == target;
        todo := todo - {s};
      }
      assert members == Uncounted(before, msg);
      notices := DropMessageNotices(notices, {id});
      messages := messages - {id};
      code := Ok;
    }

    method RemoveDialog(me: string, dialogId: string) returns (code: int)
      modifies this
      ensures (code, State()) == DeleteDialog(old(State()), me, dialogId)
    {
      if !IsUuid(dialogId) {
        return BadRequest;
      }
      if Seat(dialogId, me) !in members {
        return NotFound;
      }
      var gone := MessagesOf(State(), dialogId);
      notices := DropMessageNotices(notices, gone);
      messages := map k | k in messages && k !in gone :: messages[k];
      members := map s | s in members && s.dialogId != dialogId :: members[s];
      dialogs := Without(dialogs, dialogId);
      code := Ok;
    }
  }
}
