/**
 * The admin broadcast: `/send` from the admin arms it, `/cancel` from the
 * admin disarms it, and while it is armed every other message from the admin
 * is relayed to every tracked chat except the admin's own. Nothing else
 * changes the flag; in particular a broadcast leaves it armed.
 */
module Broadcast {
  import opened Optional

  /** `ADMIN_ID`. */
  const AdminId: int := 6076530076

  /** The parts of an incoming message the broadcast handler reads. */
  datatype Message = Message(
    chatId: int,
    text: Option<string>,
    photo: Option<seq<string>>,  // file ids of the photo's sizes, largest last
    video: Option<string>,       // file id
    voice: Option<string>,       // file id
    caption: Option<string>)

  /** What one recipient is sent. */
  datatype Content =
    | TextBody(body: string)
    | Photo(fileId: string, caption: string)
    | Video(fileId: string, caption: string)
    | Voice(fileId: string, caption: string)

  datatype Delivery = Delivery(to: int, content: Content)

  datatype AdminReply = BroadcastOn | BroadcastOff | BroadcastSent | NoReply

  datatype AdminOutcome = AdminOutcome(armed: bool, deliveries: seq<Delivery>, reply: AdminReply)

  /** `msg.text && !msg.text.startsWith("/")`: the message's own text is relayed. */
  predicate RelaysText(m: Message) {
    m.text.Some? && m.text.value != "" && m.text.value[0] != '/'
  }

  /**
   * What each recipient is sent for message `m`, if anything: its text unless
   * that is empty or a command, else the largest photo size, the video or the
   * voice note with the caption (or "" without one). A photo without sizes
   * throws inside the `try`, which swallows it, so nobody is sent anything.
   */
  function ContentOf(m: Message): (c: Option<Content>)
    ensures RelaysText(m) <==> c.Some? && c.value.TextBody?
    ensures c.Some? && c.value.TextBody? ==> m.text == Some(c.value.body)
    ensures !RelaysText(m) && m.photo.Some? && |m.photo.value| > 0 ==>
      c == Some(Photo(m.photo.value[|m.photo.value| - 1], m.caption.GetOr("")))
    ensures !RelaysText(m) && m.photo.Some? && |m.photo.value| == 0 ==> c == None
    ensures !RelaysText(m) && m.photo.None? && m.video.Some? ==>
      c == Some(Video(m.video.value, m.caption.GetOr("")))
    ensures !RelaysText(m) && m.photo.None? && m.video.None? && m.voice.Some? ==>
      c == Some(Voice(m.voice.value, m.caption.GetOr("")))
    ensures c.None? <==>
      && !RelaysText(m)
      && ((m.photo.Some? && |m.photo.value| == 0) || (m.photo.None? && m.video.None? && m.voice.None?))
  {
    if RelaysText(m) then Some(TextBody(m.text.value))
    else if m.photo.Some? then
      if |m.photo.value| == 0 then None
      else Some(Photo(m.photo.value[|m.photo.value| - 1], m.caption.GetOr("")))
    else if m.video.Some? then Some(Video(m.video.value, m.caption.GetOr("")))
    else if m.voice.Some? then Some(Voice(m.voice.value, m.caption.GetOr("")))
    else None
  }

  /** `xs` with every occurrence of `a` dropped, the rest in their order. */
  function Without(xs: seq<int>, a: int): (r: seq<int>)
    ensures a !in r && |r| <= |xs|
    decreases |xs|
  {
    if |xs| == 0 then []
    else
      var last := xs[|xs| - 1];
      Without(xs[..|xs| - 1], a) + (if last == a then [] else [last])
  }

  /** Dropping `a` removes all its occurrences and keeps every other element as often as it was. */
  lemma {:induction false} WithoutContents(xs: seq<int>, a: int)
    ensures multiset(Without(xs, a)) == multiset(xs)[a := 0]
    decreases |xs|
  {
    if |xs| > 0 {
      var last := xs[|xs| - 1];
      assert xs == xs[..|xs| - 1] + [last];
      WithoutContents(xs[..|xs| - 1], a);
    }
  }

  /** Dropping distributes over concatenation, so the order of the rest is kept. */
  lemma {:induction false} WithoutAppend(xs: seq<int>, ys: seq<int>, a: int)
    ensures Without(xs + ys, a) == Without(xs, a) + Without(ys, a)
    decreases |ys|
  {
    if |ys| == 0 {
      assert xs + ys == xs;
    } else {
      var ys' := ys[..|ys| - 1];
      assert (xs + ys)[..|xs + ys| - 1] == xs + ys';
      WithoutAppend(xs, ys', a);
    }
  }

  /** The recipient list: every tracked chat but the admin, in tracking order. */
  function Recipients(allUsers: seq<int>): (r: seq<int>)
    ensures forall u :: u in r <==> u in allUsers && u != AdminId
  {
    var r := Without(allUsers, AdminId);
    WithoutContents(allUsers, AdminId);
    assert forall u :: u in r <==> u in multiset(r);
    r
  }

  /** One delivery of `c` to each of `recipients`, in order. */
  function Relay(recipients: seq<int>, c: Content): seq<Delivery> {
    seq(|recipients|, i requires 0 <= i < |recipients| => Delivery(recipients[i], c))
  }

  lemma RelayStep(recipients: seq<int>, u: int, c: Content)
    ensures Relay(recipients + [u], c) == Relay(recipients, c) + [Delivery(u, c)]
  {
  }

  lemma WithoutStep(xs: seq<int>, u: int, a: int)
    ensures Without(xs + [u], a) == Without(xs, a) + (if u == a then [] else [u])
  {
    assert (xs + [u])[..|xs|] == xs;
  }

  /**
   * The `for (const userId of data.allUsers)` loop relaying `m`. The content is
   * worked out once: the source recomputes it per recipient from the same message.
   */
  method FanOut(allUsers: seq<int>, m: Message) returns (sent: seq<Delivery>)
    ensures ContentOf(m).None? ==> sent == []
    ensures ContentOf(m).Some? ==> sent == Relay(Without(allUsers, AdminId), ContentOf(m).value)
  {
    var content := ContentOf(m);
    sent := [];
    if content.None? {
      return;
    }
    var c := content.value;
    var i := 0;
    while i < |allUsers|
      invariant 0 <= i <= |allUsers|
      invariant sent == Relay(Without(allUsers[..i], AdminId), c)
    {
      var userId := allUsers[i];
      ghost var before := Without(allUsers[..i], AdminId);
      assert allUsers[..i + 1] == allUsers[..i] + [userId];
      WithoutStep(allUsers[..i], userId, AdminId);
      if userId != AdminId {
        RelayStep(before, userId, c);
        sent := sent + [Delivery(userId, c)];
      }
      i := i + 1;
    }
    assert allUsers[..|allUsers|] == allUsers;
  }

  /** The second `message` handler, given the armed flag and the tracked chats. */
  method HandleAdminMessage(armed: bool, allUsers: seq<int>, m: Message) returns (r: AdminOutcome)
    ensures m.chatId != AdminId ==> r == AdminOutcome(armed, [], NoReply)
    ensures m.chatId == AdminId && m.text == Some("/send") ==> r == AdminOutcome(true, [], BroadcastOn)
    ensures m.chatId == AdminId && m.text == Some("/cancel") ==> r == AdminOutcome(false, [], BroadcastOff)
    ensures r.armed != armed ==> m.chatId == AdminId && (m.text == Some("/send") || m.text == Some("/cancel"))
    ensures r.reply == BroadcastSent <==>
      armed && m.chatId == AdminId && m.text != Some("/send") && m.text != Some("/cancel")
    ensures r.reply == BroadcastSent ==> r.armed
    ensures m.chatId == AdminId && !armed && m.text != Some("/send") && m.text != Some("/cancel") ==>
      r == AdminOutcome(false, [], NoReply)
    ensures r.deliveries != [] ==> r.reply == BroadcastSent && ContentOf(m).Some?
    ensures r.reply == BroadcastSent && ContentOf(m).Some? ==>
      && |r.deliveries| == |Recipients(allUsers)|
      && forall i :: 0 <= i < |r.deliveries| ==>
           r.deliveries[i] == Delivery(Recipients(allUsers)[i], ContentOf(m).value)
  {
    if m.text == Some("/send") && m.chatId == AdminId {
      return AdminOutcome(true, [], BroadcastOn);
    }
    if m.text == Some("/cancel") && m.chatId == AdminId {
      return AdminOutcome(false, [], BroadcastOff);
    }
    if armed && m.chatId == AdminId {
      var sent := FanOut(allUsers, m);
      return AdminOutcome(armed, sent, BroadcastSent);
    }
    return AdminOutcome(armed, [], NoReply);
  }
}
