# Colour-prediction bot: session and referral engine

A Dafny model of the logic inside `index.js` of a Telegram bot that walks each
chat through a short "prediction" conversation, counts referrals and grants
sure-shot credits, records which chats used the bot, and lets the admin relay
a message to every user. The Telegram and HTTP plumbing is left out; what
remains is modelled as immutable values and pure functions:

- `optional.dfy` (`Optional`): the `Option` type standing for `undefined`.
- `strings.dfy` (`Strings`): the JavaScript character classes `\d`, `\s` and `.`,
  `parseInt(s, 10)` on digit strings and `String(n)` on integer chat ids.
- `tracking.dfy` (`Tracking`): `trackUser` over `allUsers`, `dailyUsers` and
  `monthlyUsers`.
- `referral.dfy` (`Referral`): the `/start` pattern, the `REF_<id>` payload,
  the `referrals` / `sureShotCredits` ledger and the referral dashboard.
- `conversation.dfy` (`Conversation`): the per-chat step machine `USERS[chatId]`
  (steps 0 to 4 as `Idle`, `AwaitPeriod`, `AwaitNumber`, `AwaitSize`,
  `AwaitColour`).
- `broadcast.dfy` (`Broadcast`): the admin's `/send` / `/cancel` flag and the
  relay loop.
- `bot.dfy` (`Bot`): the `/start`, `callback_query` and `message` handlers as
  transitions of the whole bot state, and the invariant they keep.

Three behaviours of the code are worth stating up front, because a reader
might expect otherwise:

- A referral is credited every time an invitee sends `/start REF_<id>`. Nothing
  records who invited whom, so the same invitee is counted again on every
  repeat (`Referral.SameInviteeCountedTwice`).
- A broadcast leaves the broadcast flag armed. Only `/cancel` from the admin
  clears it.
- There is no martingale ladder, VIP status or credit consumption in this file.

## Model

| member | source | states |
|---|---|---|
| `Tracking.AddUnique` | index.js:73 | the chat is present afterwards; existing entries keep their order and position; at most one element is appended; counts of other ids are unchanged; the chat's count becomes 1 if it was absent |
| `Tracking.AddToBucket` | index.js:75-76 | a missing day or month key is created as an empty list before the insert; every other key keeps its list |
| `Tracking.AddUniqueKeepsDistinct` | index.js:73 | inserting into a duplicate-free list keeps it duplicate-free, and the chat then occurs exactly once |
| `Tracking.TrackUser` | index.js:69-82 | the chat is in `allUsers`, in today's list and in this month's list; old entries keep their order; only the given day and month keys can be new; lists under other days and months are untouched; in each of the three lists every other id keeps exactly its number of occurrences, so the chat is the only id added |
| `Tracking.TrackUserValid` | index.js:69-82 | tracking keeps all three kinds of list duplicate-free; afterwards the chat occurs exactly once in each of the three lists it touched |
| `Tracking.TrackUserIdempotent` | index.js:69-82 | tracking a chat a second time on the same day and month changes nothing |
| `Strings.ParseDigits` | index.js:187 | `parseInt` of an n-digit string is below 10^n |
| `Strings.Digits` | index.js:95 | the decimal rendering of a natural number is a non-empty digit string with no leading zero |
| `Strings.DigitsRoundTrip` | index.js:95 | parsing the decimal rendering of n gives back n |
| `Strings.DecimalString` | index.js:95 | `String(chatId)` is non-empty, made of digits and `-`, and starts with a digit exactly when the id is non-negative |
| `Strings.DecimalStringValue` | index.js:95 | `String(chatId)` of a non-negative id is its digits without a leading zero, parsing back to the id; of a negative id it is `-` followed by the digits of its magnitude, again without a leading zero |
| `Strings.DecimalStringInjective` | index.js:95 | two chat ids render to the same string only if they are equal, so the self-referral test compares ids |
| `Referral.SpaceRun` | index.js:88 | the greedy `\s+` takes the longest prefix of white-space characters: every character it takes is white space and the next one is not |
| `Referral.LineRun` | index.js:88 | the greedy `.+` takes the longest prefix without a line terminator: every character it takes is a non-terminator and the next one is a terminator |
| `Referral.Backtrack` | index.js:88 | when `.+` finds nothing after `\s+`, the rightmost position the white space can give back that `.` accepts; positions further right are all line terminators, and none is found only when every candidate is one |
| `Referral.FindCommand` | index.js:88 | finds the leftmost occurrence of `/start`; no earlier position holds one, and none exists when it answers none |
| `Referral.MatchStart` | index.js:88-92 | the unanchored pattern fires exactly when `/start` occurs somewhere in the text; a captured payload is non-empty and holds no line terminator |
| `Referral.DeepLinkPayload` | index.js:88-92 | `/start`, one space and a payload that starts with a non-space and has no line break yields exactly that payload |
| `Referral.NoPayloadWithoutSpace` | index.js:88-92 | `/start` alone, or glued to its argument, fires the handler with no payload |
| `Referral.TrailingSpacesBacktrack` | index.js:88 | `"/start  "` captures a single space, because the greedy `\s+` gives one space back to `.+` |
| `Referral.AcceptedInviter` | index.js:92-95 | an inviter is accepted only from a `REF_` payload whose rest is non-empty and differs from `String(chatId)`, and every such payload is accepted; the payload is `REF_` followed by the inviter |
| `Referral.Credit` | index.js:96-100 | the inviter's count rises by exactly 1 (absent counts as 0) and every other count is unchanged; a credit is granted, to that inviter only and by exactly 1, iff the new count is a multiple of 5; otherwise credits are unchanged |
| `Referral.StartReferral` | index.js:92-109 | no payload, a payload without `REF_`, a bare `REF_` or the sender's own link leave the ledger unchanged and reward no one; an accepted payload raises exactly the inviter's count by 1, and the inviter is congratulated, and its credits raised by exactly 1 with no other credit touched, iff its new count is a multiple of 5; otherwise credits are unchanged |
| `Referral.StartReferralKeepsRewardsMatch` | index.js:96-100 | if every inviter holds one credit per five invitations before a `/start`, that still holds after it |
| `Referral.StartAllCounts` | index.js:96-100 | n accepted invitations to one inviter raise its count by n and its credits by the number of multiples of 5 passed |
| `Referral.CreditsFromScratch` | index.js:98-100 | starting from an empty ledger, k invitations give the inviter k / 5 credits |
| `Referral.SameInviteeCountedTwice` | index.js:92-100 | the same invitee sending the same link twice raises the inviter's count by 2 |
| `Referral.ReferralPayload` | index.js:151 | the link payload is `REF_` followed by `String(chatId)`, starts with a non-space and holds no line terminator, so `/start` and one space before it capture it whole |
| `Referral.Dashboard` | index.js:149-150 | the invite count and the credits shown are the ledger's values under `String(chatId)`, 0 when absent; in a ledger holding one credit per five invitations, the credits shown are the invites divided by 5 |
| `Referral.InviterOfLink` | index.js:93-95 | the payload `REF_<id>` names `<id>` for every other chat and is refused when sent by `<id>` itself |
| `Referral.ReferralLinkRoundTrip` | index.js:148-151 | the dashboard link, sent back as `/start REF_<id>` by another chat, raises the count the dashboard shows by one; sent by the inviter, it leaves the ledger unchanged |
| `Conversation.Pad3` | index.js:219 | the three-digit rendering of a period below 1000 passes the three-digit check and parses back to the period |
| `Conversation.PeriodTextIsPad3` | index.js:219-221 | every text the three-digit check accepts is the rendering of its parsed value, which is below 1000 |
| `Conversation.NextPeriod` | index.js:187 | the next period lies in 1..1000, and one less than it renders back to the entered period text |
| `Conversation.OnButton` | index.js:143-206 | `START_PRED` moves to step 1 and keeps the other fields; `MY_REF` leaves the session alone; BIG/SMALL at step 3 moves to step 4 and sets the size; a colour at step 4 always resets to step 0; it reports expired iff no period was captured and otherwise predicts a next period in 1..1000; any other button (unknown, or a size or colour at the wrong step) changes nothing and gets no reply |
| `Conversation.OnText` | index.js:214-238 | at step 1 the session moves to step 2 iff the text is three ASCII digits and stores it; otherwise the session is unchanged and a format error is reported; step 2 is the same with one digit, moving to step 3; empty text, and text at any other step, change nothing |
| `Conversation.Step` | index.js:111 | `/start` always resets the session to step 0 with nothing collected; an "expired" reply only comes from step 4 without a period |
| `Conversation.StepKeepsConsistent` | index.js:164-181 | in a session the machine can produce, a later step holds every value the earlier steps collect; every event keeps this, and such a session never expires |
| `Conversation.RunNeverExpires` | index.js:178-182 | from any consistent session, including `{ step: 0 }`, no sequence of events takes the "session expired" branch |
| `Conversation.Round` | index.js:143-204 | from any session, START_PRED, the period n, a digit, a size and a colour give the replies of a full round, the prediction for period n + 1 and a session back at step 0 |
| `Conversation.ExampleRound` | index.js:187 | period 556, digit 7, BIG and RED predict period 557 |
| `Broadcast.ContentOf` | index.js:273-282 | a text is relayed as is exactly when it is non-empty and does not start with `/`; otherwise the last (largest) photo size is relayed with the caption (empty when absent); without a photo, the video, and without a video, the voice, each with the caption; nothing is relayed exactly when the text is not relayed and the photo list is empty or there is no photo, video or voice |
| `Broadcast.Without` | index.js:269-270 | the admin's id never remains in the list, and the list does not grow |
| `Broadcast.WithoutContents` | index.js:269-270 | every other id keeps all its occurrences; only the admin's id is removed |
| `Broadcast.WithoutAppend` | index.js:269-270 | removing the admin distributes over concatenation, so the remaining ids keep their order |
| `Broadcast.Recipients` | index.js:269-270 | a chat is a recipient iff it is tracked and is not the admin |
| `Broadcast.FanOut` | index.js:269-284 | the loop's deliveries equal `Relay(Without(allUsers, AdminId), content)`: one delivery of the message's content per entry of `allUsers` other than the admin, in `allUsers` order; it sends nothing when the message has no relayable content |
| `Broadcast.HandleAdminMessage` | index.js:252-286 | only the admin arms (`/send`) or disarms (`/cancel`) the flag; anyone else changes nothing and receives nothing; the flag changes only through those two commands; a broadcast happens iff the flag is armed and the admin sends anything else; it leaves the flag armed and relays to the recipients in order; an unarmed admin's other messages change nothing and get no reply |
| `Bot.OnStartText` | index.js:88-111 | a text without `/start` changes nothing; otherwise the activity store is exactly `trackUser` applied to it, the chat's session is reset to step 0, the ledger and the inviter to congratulate are exactly those of the referral step, and no other chat's session is touched |
| `Bot.OnCallback` | index.js:132-207 | a button press makes the activity store exactly `trackUser` applied to it, gives the pressing chat exactly the session and reply of the step machine's button transition, leaves the ledger and the broadcast flag alone and touches no other chat's session; it shows the referral dashboard of the pressing chat exactly when it replies to `MY_REF` |
| `Bot.OnMessage` | index.js:210-239 | a message makes the activity store exactly `trackUser` applied to it; a message without text leaves every session alone and gets no reply; a text gives the sender exactly the session and reply of the step machine's text transition; no other chat's session changes |
| `Bot.OnAdminMessage` | index.js:252-286 | the admin handler changes the bot only in its broadcast flag; a message from anyone but the admin changes nothing and relays nothing; the admin's `/send` arms and `/cancel` disarms; the admin's `/send` is answered "on", `/cancel` "off", and any other non-broadcast message nothing; a broadcast happens iff the flag was armed and the admin sends anything other than the two commands; the deliveries are the relay to the tracked chats other than the admin when there is content, and empty otherwise |
| `Bot.InitialInvariant` | index.js:44-50 | the empty store and the empty session table satisfy the invariant |
| `Bot.StartKeepsInvariant` | index.js:88-111 | `/start` keeps activity lists duplicate-free, credits at one per five invitations and all sessions consistent |
| `Bot.CallbackKeepsInvariant` | index.js:132-207 | a button press keeps the invariant, and it never reports "session expired" |
| `Bot.MessageKeepsInvariant` | index.js:210-239 | a message keeps the invariant |
| `Bot.DispatchOrderIrrelevant` | index.js:88-90 | a text that fires both `/start` and the `message` handler leaves the bot in the same state whichever runs first (the replies can differ) |
| `Bot.StartMidRoundDrawsFormatError` | index.js:210-228 | a `/start` sent at step 1 or 2 draws that step's format error from the `message` handler, which runs first; run after the `/start` reset, that handler would stay silent |

## Left out

- Telegram transport: every `sendMessage`, `sendPhoto`, `sendVideo`, `sendVoice` and `answerCallbackQuery` call. Replies are a `Reply` or `AdminReply` value, relayed messages a `Delivery` list, and the inviter to congratulate is the `rewarded` field. The wording and Markdown of messages are not modelled.
- The Express health endpoint and token/environment loading (index.js:1-39): these are process setup, not logic.
- Persistence (index.js:41-59): the JSON file, its synchronous rewrite after each change and the fallback for a corrupt file. The store is an in-memory value, and `Bot.Initial` is the empty store.
- `today()` and `month()` (index.js:62-66) read the wall clock. The day and month keys are parameters of every handler.
- The random size, colour and confidence of a prediction (index.js:188-191). Only the next period is modelled.
- The 900 ms `setTimeout` (index.js:186-205). Completing step 4 is treated as atomic, so events that arrive during the delay are not interleaved.
- The `async` relay and its swallowed delivery errors (index.js:272-283). A delivery is recorded as attempted; success or failure is not modelled. The content is worked out once rather than once per recipient, which gives the same result because the message does not change.
- A `callback_query` without a message (index.js:133): no chat is involved, so there is nothing to model.
- The two `/stats` handlers (index.js:242-250 and 288-298): they are read-only admin reports.
- The library's dispatch order. One text reaches the `message` handlers and then the `onText` handlers; each handler is modelled on its own. `Bot.DispatchOrderIrrelevant` shows the order does not matter for the bot's state after `/start`; the replies do depend on it, since at step 1 or 2 the `message` handler answers `/start` with the format error before the welcome (`Bot.StartMidRoundDrawsFormatError`). `Bot.OnAdminMessage` runs the admin handler on the bot's own flag and `allUsers`.
- JavaScript object keys that name `Object.prototype` members (a payload such as `REF_toString`): in the source these read an inherited property instead of `undefined`. The model treats every key as an ordinary absent key.
- Chat ids are unbounded integers. Number precision above 2^53 is not modelled.
- `Referral.MatchStart`: its contract gives when the handler fires and the shape of a captured payload, not the exact payload for every text. The lemmas `Referral.DeepLinkPayload`, `Referral.NoPayloadWithoutSpace` and `Referral.TrailingSpacesBacktrack` fix the payload for the link form, the bare form and trailing white space.
- The relay loop walks the live `allUsers` array across `await`s (index.js:272-283). A chat tracked while the loop is still running is reached too, and a `/cancel` sent mid-loop does not stop it. The model fixes the recipient list when the broadcast starts and treats the loop as atomic.
