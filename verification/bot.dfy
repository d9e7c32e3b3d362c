/**
 * The bot's handlers as whole-state transitions: each inbound event first
 * tracks the chat, then runs its handler's part of the referral ledger or the
 * conversation. The wall-clock day and month keys are parameters.
 */
module Bot {
  import opened Optional
  import Tracking
  import opened Referral
  import opened Conversation
  import Broadcast

  /** The persisted `data` (activity lists and ledger), `USERS`, and `ADMIN_BROADCAST`. */
  datatype Bot = Bot(
    activity: Tracking.Activity,
    ledger: Ledger,
    sessions: map<int, Session>,
    armed: bool)

  const Initial := Bot(Tracking.NoActivity, EmptyLedger, map[], false)

  /** `USERS[chatId] || { step: 0 }`. */
  function SessionOf(sessions: map<int, Session>, chatId: int): Session {
    if chatId in sessions then sessions[chatId] else Fresh
  }

  ghost predicate AllConsistent(sessions: map<int, Session>) {
    forall id :: id in sessions ==> Consistent(sessions[id])
  }

  /** A property every state reachable from `Initial` has. */
  ghost predicate Invariant(b: Bot) {
    && Tracking.Valid(b.activity)
    && RewardsMatch(b.ledger)
    && AllConsistent(b.sessions)
  }

  /**
   * A handler's new state, its reply to the sender, the inviter to congratulate,
   * if any, and the referral dashboard shown to the sender, if any.
   */
  datatype Handled = Handled(bot: Bot, reply: Reply, rewarded: Option<string>, shown: Option<Standing>)

  /** The `/start` handler for a text `text` from `chatId`; it fires only when the pattern matches. */
  function OnStartText(b: Bot, chatId: int, text: string, day: string, month: string): (r: Handled)
    ensures MatchStart(text).NoStart? ==> r == Handled(b, Silent, None, None)
    ensures r.shown.None?
    ensures MatchStart(text).StartWith? ==>
      && chatId in r.bot.activity.allUsers
      && SessionOf(r.bot.sessions, chatId) == Fresh
      && r.reply == Welcome
      && r.bot.activity == Tracking.TrackUser(b.activity, chatId, day, month)
      && r.bot.ledger == StartReferral(b.ledger, chatId, MatchStart(text).payload).ledger
      && r.rewarded == StartReferral(b.ledger, chatId, MatchStart(text).payload).rewarded
    ensures forall id :: id != chatId ==> SessionOf(r.bot.sessions, id) == SessionOf(b.sessions, id)
    ensures r.bot.armed == b.armed
  {
    match MatchStart(text)
    case NoStart => Handled(b, Silent, None, None)
    case StartWith(payload) =>
      var activity := Tracking.TrackUser(b.activity, chatId, day, month);
      var referral := StartReferral(b.ledger, chatId, payload);
      Handled(Bot(activity, referral.ledger, b.sessions[chatId := Fresh], b.armed), Welcome, referral.rewarded, None)
  }

  /** The `callback_query` handler for button `data` pressed in `chatId`. */
  function OnCallback(b: Bot, chatId: int, data: string, day: string, month: string): (r: Handled)
    ensures chatId in r.bot.activity.allUsers
    ensures r.bot.ledger == b.ledger && r.bot.armed == b.armed && r.rewarded.None?
    ensures forall id :: id != chatId ==> SessionOf(r.bot.sessions, id) == SessionOf(b.sessions, id)
    ensures r.bot.activity == Tracking.TrackUser(b.activity, chatId, day, month)
    ensures var t := OnButton(SessionOf(b.sessions, chatId), data);
      SessionOf(r.bot.sessions, chatId) == t.session && r.reply == t.reply
    ensures r.reply == Expired ==> SessionOf(b.sessions, chatId).period.None?
    ensures r.shown.Some? <==> r.reply == ShowReferrals
    ensures r.shown.Some? ==> r.shown.value == Dashboard(r.bot.ledger, chatId)
  {
    var activity := Tracking.TrackUser(b.activity, chatId, day, month);
    var t := OnButton(SessionOf(b.sessions, chatId), data);
    var shown := if data == "MY_REF" then Some(Dashboard(b.ledger, chatId)) else None;
    Handled(Bot(activity, b.ledger, b.sessions[chatId := t.session], b.armed), t.reply, None, shown)
  }

  /** The first `message` handler for a message from `chatId`, with its text if it has one. */
  function OnMessage(b: Bot, chatId: int, text: Option<string>, day: string, month: string): (r: Handled)
    ensures chatId in r.bot.activity.allUsers
    ensures r.bot.ledger == b.ledger && r.bot.armed == b.armed && r.rewarded.None?
    ensures r.bot.activity == Tracking.TrackUser(b.activity, chatId, day, month)
    ensures text.None? ==> r.bot.sessions == b.sessions && r.reply == Silent
    ensures r.shown.None?
    ensures text.Some? ==> var t := OnText(SessionOf(b.sessions, chatId), text.value);
      SessionOf(r.bot.sessions, chatId) == t.session && r.reply == t.reply
    ensures forall id :: id != chatId ==> SessionOf(r.bot.sessions, id) == SessionOf(b.sessions, id)
  {
    var activity := Tracking.TrackUser(b.activity, chatId, day, month);
    match text
    case None => Handled(b.(activity := activity), Silent, None, None)
    case Some(t) =>
      var step := OnText(SessionOf(b.sessions, chatId), t);
      Handled(Bot(activity, b.ledger, b.sessions[chatId := step.session], b.armed), step.reply, None, None)
  }

  /**
   * The second `message` handler for message `m`: it reads the tracked chats and
   * the broadcast flag, and changes nothing but the flag.
   */
  method OnAdminMessage(b: Bot, m: Broadcast.Message) returns (next: Bot, out: Broadcast.AdminOutcome)
    ensures next == b.(armed := out.armed)
    ensures m.chatId != Broadcast.AdminId ==> next == b && out.deliveries == []
    ensures m.chatId == Broadcast.AdminId && m.text == Some("/send") ==> next.armed
    ensures m.chatId == Broadcast.AdminId && m.text == Some("/cancel") ==> !next.armed
    ensures next.armed != b.armed ==>
      m.chatId == Broadcast.AdminId && (m.text == Some("/send") || m.text == Some("/cancel"))
    ensures out.reply != Broadcast.BroadcastSent ==>
      out.reply ==
        if m.chatId == Broadcast.AdminId && m.text == Some("/send") then Broadcast.BroadcastOn
        else if m.chatId == Broadcast.AdminId && m.text == Some("/cancel") then Broadcast.BroadcastOff
        else Broadcast.NoReply
    ensures out.reply == Broadcast.BroadcastSent <==>
      b.armed && m.chatId == Broadcast.AdminId && m.text != Some("/send") && m.text != Some("/cancel")
    ensures out.deliveries ==
      if out.reply == Broadcast.BroadcastSent && Broadcast.ContentOf(m).Some? then
        Broadcast.Relay(Broadcast.Recipients(b.activity.allUsers), Broadcast.ContentOf(m).value)
      else []
  {
    out := Broadcast.HandleAdminMessage(b.armed, b.activity.allUsers, m);
    next := b.(armed := out.armed);
  }

  lemma InitialInvariant()
    ensures Invariant(Initial)
  {
    EmptyLedgerRewardsMatch();
  }

  /** Replacing one chat's session by a consistent one keeps all sessions consistent. */
  lemma UpdateKeepsConsistent(sessions: map<int, Session>, chatId: int, s: Session)
    requires AllConsistent(sessions)
    requires Consistent(s)
    ensures AllConsistent(sessions[chatId := s])
  {
  }

  /** `/start` keeps the lists duplicate-free, one credit per five invites and sessions consistent. */
  lemma StartKeepsInvariant(b: Bot, chatId: int, text: string, day: string, month: string)
    requires Invariant(b)
    ensures Invariant(OnStartText(b, chatId, text, day, month).bot)
  {
    if MatchStart(text).StartWith? {
      Tracking.TrackUserValid(b.activity, chatId, day, month);
      StartReferralKeepsRewardsMatch(b.ledger, chatId, MatchStart(text).payload);
      UpdateKeepsConsistent(b.sessions, chatId, Fresh);
    }
  }

  /** A button press keeps the invariant and never finds the session expired. */
  lemma CallbackKeepsInvariant(b: Bot, chatId: int, data: string, day: string, month: string)
    requires Invariant(b)
    ensures Invariant(OnCallback(b, chatId, data, day, month).bot)
    ensures OnCallback(b, chatId, data, day, month).reply != Expired
  {
    Tracking.TrackUserValid(b.activity, chatId, day, month);
    var current := SessionOf(b.sessions, chatId);
    StepKeepsConsistent(current, Button(data));
    UpdateKeepsConsistent(b.sessions, chatId, OnButton(current, data).session);
  }

  /** A message keeps the invariant. */
  lemma MessageKeepsInvariant(b: Bot, chatId: int, text: Option<string>, day: string, month: string)
    requires Invariant(b)
    ensures Invariant(OnMessage(b, chatId, text, day, month).bot)
  {
    Tracking.TrackUserValid(b.activity, chatId, day, month);
    if text.Some? {
      var current := SessionOf(b.sessions, chatId);
      StepKeepsConsistent(current, Text(text.value));
      UpdateKeepsConsistent(b.sessions, chatId, OnText(current, text.value).session);
    }
  }

  /** The state `/start` leads to: tracked, referral applied, session reset. */
  function AfterStart(b: Bot, chatId: int, text: string, day: string, month: string): Bot
    requires MatchStart(text).StartWith?
  {
    Bot(
      Tracking.TrackUser(b.activity, chatId, day, month),
      StartReferral(b.ledger, chatId, MatchStart(text).payload).ledger,
      b.sessions[chatId := Fresh],
      b.armed)
  }

  lemma StartAfterMessage(b: Bot, chatId: int, text: string, day: string, month: string)
    requires MatchStart(text).StartWith?
    ensures OnStartText(OnMessage(b, chatId, Some(text), day, month).bot, chatId, text, day, month).bot
      == AfterStart(b, chatId, text, day, month)
  {
    var tracked := Tracking.TrackUser(b.activity, chatId, day, month);
    var moved := b.sessions[chatId := OnText(SessionOf(b.sessions, chatId), text).session];
    var afterMessage := Bot(tracked, b.ledger, moved, b.armed);
    assert OnMessage(b, chatId, Some(text), day, month).bot == afterMessage;
    Tracking.TrackUserIdempotent(b.activity, chatId, day, month);
    assert moved[chatId := Fresh] == b.sessions[chatId := Fresh];
  }

  lemma MessageAfterStart(b: Bot, chatId: int, text: string, day: string, month: string)
    requires MatchStart(text).StartWith?
    ensures OnMessage(OnStartText(b, chatId, text, day, month).bot, chatId, Some(text), day, month).bot
      == AfterStart(b, chatId, text, day, month)
  {
    var reset := b.sessions[chatId := Fresh];
    Tracking.TrackUserIdempotent(b.activity, chatId, day, month);
    assert OnStartText(b, chatId, text, day, month).bot == AfterStart(b, chatId, text, day, month);
    assert OnText(Fresh, text).session == Fresh;
    assert reset[chatId := Fresh] == reset;
  }

  /**
   * A text that fires `/start` also reaches the `message` handler; whichever of
   * the two runs first, the bot ends in the same state.
   */
  lemma DispatchOrderIrrelevant(b: Bot, chatId: int, text: string, day: string, month: string)
    ensures var messageFirst := OnStartText(OnMessage(b, chatId, Some(text), day, month).bot, chatId, text, day, month);
      var startFirst := OnMessage(OnStartText(b, chatId, text, day, month).bot, chatId, Some(text), day, month);
      messageFirst.bot == startFirst.bot
  {
    if MatchStart(text).StartWith? {
      StartAfterMessage(b, chatId, text, day, month);
      MessageAfterStart(b, chatId, text, day, month);
    }
  }

  /**
   * Where the order does show: the `message` handler runs before the `/start`
   * handler, so a `/start` sent while the chat is asked for a period or a digit
   * also draws that step's format error. Run the other way round, the reset
   * session would make the `message` handler silent.
   */
  lemma StartMidRoundDrawsFormatError(b: Bot, chatId: int, day: string, month: string)
    requires SessionOf(b.sessions, chatId).phase in {AwaitPeriod, AwaitNumber}
    ensures OnMessage(b, chatId, Some("/start"), day, month).reply ==
      if SessionOf(b.sessions, chatId).phase == AwaitPeriod then PeriodInvalid else NumberInvalid
    ensures OnMessage(OnStartText(b, chatId, "/start", day, month).bot, chatId, Some("/start"), day, month).reply == Silent
  {
    var text := "/start";
    assert !IsPeriodText(text) && !IsNumberText(text) by { assert |text| == 6; }
    var t := OnText(SessionOf(b.sessions, chatId), text);
    assert t.reply == if SessionOf(b.sessions, chatId).phase == AwaitPeriod then PeriodInvalid else NumberInvalid;
    assert MatchStart(text).StartWith? by { assert StartsAt(text, 0); }
    var started := OnStartText(b, chatId, text, day, month).bot;
    assert SessionOf(started.sessions, chatId) == Fresh;
    assert OnText(Fresh, text).reply == Silent;
  }
}
