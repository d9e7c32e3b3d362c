/**
 * The `/start` command and the referral ledger it feeds: the command is
 * recognised by the unanchored pattern `/\/start(?:\s+(.+))?/`; a payload
 * `REF_<inviter>` credits one invitation to `<inviter>` unless the inviter
 * part is empty or is the sender's own chat id, and every fifth invitation
 * grants the inviter one sure-shot credit. There is no record of who invited
 * whom, so the same invitee starting the bot again is credited again.
 */
module Referral {
  import opened Optional
  import opened Strings

  const Command := "/start"

  /** `/start` occurs in `text` at index `i`. */
  predicate StartsAt(text: string, i: nat) {
    i + |Command| <= |text| && text[i..i + |Command|] == Command
  }

  /** The first index at or after `from` where `/start` occurs. */
  function FindCommand(text: string, from: nat): (r: Option<nat>)
    decreases |text| - from
    ensures r.Some? ==> from <= r.value && StartsAt(text, r.value)
    ensures forall j :: from <= j && (r.None? || j < r.value) ==> !StartsAt(text, j)
  {
    if |text| < from + |Command| then None
    else if StartsAt(text, from) then Some(from)
    else FindCommand(text, from + 1)
  }

  /** Length of the run of `\s` characters that `s` begins with (the greedy `\s+`). */
  function SpaceRun(s: string): (k: nat)
    ensures k <= |s|
    ensures forall i :: 0 <= i < k ==> IsSpace(s[i])
    ensures k < |s| ==> !IsSpace(s[k])
  {
    if |s| == 0 || !IsSpace(s[0]) then 0 else 1 + SpaceRun(s[1..])
  }

  /** Length of the run of characters `.` matches that `s` begins with (the greedy `.+`). */
  function LineRun(s: string): (k: nat)
    ensures k <= |s|
    ensures forall i :: 0 <= i < k ==> !IsLineTerminator(s[i])
    ensures k < |s| ==> IsLineTerminator(s[k])
  {
    if |s| == 0 || IsLineTerminator(s[0]) then 0 else 1 + LineRun(s[1..])
  }

  /**
   * Backtracking of `\s+(.+)` when the white space runs to the end of the
   * text: the largest `j` in `1..hi-1` where `.+` can start.
   */
  function Backtrack(s: string, hi: nat): (r: Option<nat>)
    requires hi <= |s|
    ensures r.Some? ==> 1 <= r.value < hi && !IsLineTerminator(s[r.value])
    ensures forall j :: 1 <= j < hi && (r.None? || r.value < j) ==> IsLineTerminator(s[j])
  {
    if hi <= 1 then None
    else if !IsLineTerminator(s[hi - 1]) then Some(hi - 1)
    else Backtrack(s, hi - 1)
  }

  /** Whether a text fires the `/start` handler, and with which capture group `match[1]`. */
  datatype StartMatch = NoStart | StartWith(payload: Option<string>)

  /** `/\/start(?:\s+(.+))?/.exec(text)`: the leftmost match, the optional group tried first. */
  function MatchStart(text: string): (m: StartMatch)
    ensures m.NoStart? <==> forall j :: 0 <= j <= |text| ==> !StartsAt(text, j)
    ensures m.StartWith? && m.payload.Some? ==>
      && 1 <= |m.payload.value|
      && forall i :: 0 <= i < |m.payload.value| ==> !IsLineTerminator(m.payload.value[i])
  {
    match FindCommand(text, 0)
    case None => NoStart
    case Some(i) =>
      var rest := text[i + |Command|..];
      var k := SpaceRun(rest);
      if k == 0 then StartWith(None)
      else if k < |rest| then StartWith(Some(rest[k..k + LineRun(rest[k..])]))
      else
        match Backtrack(rest, k)
        case None => StartWith(None)
        case Some(j) => StartWith(Some([rest[j]]))
  }

  /** A text that opens with `/start`, one space and a payload hands that payload over intact. */
  lemma DeepLinkPayload(p: string)
    requires 1 <= |p| && !IsSpace(p[0])
    requires forall i :: 0 <= i < |p| ==> !IsLineTerminator(p[i])
    ensures MatchStart(Command + " " + p) == StartWith(Some(p))
  {
    var text := Command + " " + p;
    assert StartsAt(text, 0);
    assert FindCommand(text, 0) == Some(0);
    var rest := text[|Command|..];
    assert rest == " " + p;
    assert rest[1..] == p;
    assert SpaceRun(rest) == 1;
    assert LineRun(rest[1..]) == |p|;
    assert rest[1..1 + |p|] == p;
  }

  /** `/start` with nothing after it, or glued to its argument, carries no payload. */
  lemma NoPayloadWithoutSpace(text: string, after: string)
    requires text == Command + after
    requires |after| == 0 || !IsSpace(after[0])
    ensures MatchStart(text) == StartWith(None)
  {
    assert StartsAt(text, 0);
    assert FindCommand(text, 0) == Some(0);
    assert text[|Command|..] == after;
  }

  /** Trailing white space alone still fills the group: `.+` takes back the last space. */
  lemma TrailingSpacesBacktrack()
    ensures MatchStart("/start  ") == StartWith(Some(" "))
  {
    var text := "/start  ";
    assert StartsAt(text, 0);
    var rest := text[|Command|..];
    assert rest == "  ";
    assert SpaceRun(rest[1..]) == 1;
    assert SpaceRun(rest) == 2;
  }

  const RefPrefix := "REF_"

  /** The payload of the invitation link `https://t.me/<bot>?start=REF_<chatId>`. */
  function ReferralPayload(chatId: int): (p: string)
    ensures RefPrefix <= p && p[|RefPrefix|..] == DecimalString(chatId)
    ensures !IsSpace(p[0])
    ensures forall i :: 0 <= i < |p| ==> !IsLineTerminator(p[i])
  {
    var p := RefPrefix + DecimalString(chatId);
    assert forall i :: |RefPrefix| <= i < |p| ==> p[i] == DecimalString(chatId)[i - |RefPrefix|];
    p
  }

  /**
   * The inviter a `/start` payload credits when sent by `invitee`: the payload
   * must start with `REF_`; the rest (`replace("REF_", "")` removes exactly that
   * prefix) must be non-empty and differ from `String(invitee)`.
   */
  function AcceptedInviter(payload: Option<string>, invitee: int): (r: Option<string>)
    ensures r.Some? ==> payload == Some(RefPrefix + r.value)
    ensures r.Some? ==> r.value != "" && r.value != DecimalString(invitee)
    ensures (&& payload.Some? && RefPrefix <= payload.value && payload.value != RefPrefix
             && payload.value[|RefPrefix|..] != DecimalString(invitee)) ==> r.Some?
  {
    match payload
    case None => None
    case Some(p) =>
      if RefPrefix <= p then
        var inviter := p[|RefPrefix|..];
        assert p == RefPrefix + inviter;
        if inviter != "" && inviter != DecimalString(invitee) then Some(inviter) else None
      else None
  }

  /** The persisted `referrals` and `sureShotCredits` objects, keyed by the inviter string. */
  datatype Ledger = Ledger(referrals: map<string, nat>, credits: map<string, nat>)

  const EmptyLedger := Ledger(map[], map[])

  /** One sure-shot credit per this many invitations. */
  const RewardEvery := 5

  /** `m[k] || 0`. */
  function Count(m: map<string, nat>, k: string): nat {
    if k in m then m[k] else 0
  }

  /** The ledger after a `/start`, and the inviter to congratulate if a credit was granted. */
  datatype ReferralOutcome = ReferralOutcome(ledger: Ledger, rewarded: Option<string>)

  /** Counts one invitation for `inviter` and grants a credit on every fifth. */
  function Credit(l: Ledger, inviter: string): (r: ReferralOutcome)
    ensures forall k :: Count(r.ledger.referrals, k) == Count(l.referrals, k) + (if k == inviter then 1 else 0)
    ensures r.ledger.referrals.Keys == l.referrals.Keys + {inviter}
    ensures r.rewarded.Some? <==> Count(r.ledger.referrals, inviter) % RewardEvery == 0
    ensures r.rewarded.Some? ==> r.rewarded.value == inviter
    ensures r.rewarded.Some? ==>
      forall k :: Count(r.ledger.credits, k) == Count(l.credits, k) + (if k == inviter then 1 else 0)
    ensures r.rewarded.None? ==> r.ledger.credits == l.credits
  {
    var invites := Count(l.referrals, inviter) + 1;
    var referrals := l.referrals[inviter := invites];
    if invites % RewardEvery == 0 then
      ReferralOutcome(Ledger(referrals, l.credits[inviter := Count(l.credits, inviter) + 1]), Some(inviter))
    else
      ReferralOutcome(Ledger(referrals, l.credits), None)
  }

  /** The referral side of `/start` from chat `invitee` with capture group `payload`. */
  function StartReferral(l: Ledger, invitee: int, payload: Option<string>): (r: ReferralOutcome)
    ensures AcceptedInviter(payload, invitee).None? ==> r == ReferralOutcome(l, None)
    ensures payload.None? || !(RefPrefix <= payload.value) ==> r.ledger == l
    ensures payload == Some(RefPrefix) ==> r.ledger == l
    ensures payload == Some(ReferralPayload(invitee)) ==> r.ledger == l
    ensures AcceptedInviter(payload, invitee).Some? ==>
      var inviter := AcceptedInviter(payload, invitee).value;
      && Count(r.ledger.referrals, inviter) == Count(l.referrals, inviter) + 1
      && (forall k :: k != inviter ==> Count(r.ledger.referrals, k) == Count(l.referrals, k))
      && (r.rewarded.Some? <==> Count(r.ledger.referrals, inviter) % RewardEvery == 0)
      && (r.rewarded.Some? ==> r.rewarded.value == inviter)
      && (r.rewarded.Some? ==>
            forall k :: Count(r.ledger.credits, k) == Count(l.credits, k) + (if k == inviter then 1 else 0))
      && (r.rewarded.None? ==> r.ledger.credits == l.credits)
  {
    match AcceptedInviter(payload, invitee)
    case None => ReferralOutcome(l, None)
    case Some(inviter) => Credit(l, inviter)
  }

  /** Every inviter holds one credit per five invitations: true of a ledger that started empty. */
  ghost predicate RewardsMatch(l: Ledger) {
    forall k :: Count(l.credits, k) == Count(l.referrals, k) / RewardEvery
  }

  lemma EmptyLedgerRewardsMatch()
    ensures RewardsMatch(EmptyLedger)
  {
  }

  /** Crediting keeps credits at one per five invitations, for every inviter. */
  lemma StartReferralKeepsRewardsMatch(l: Ledger, invitee: int, payload: Option<string>)
    requires RewardsMatch(l)
    ensures RewardsMatch(StartReferral(l, invitee, payload).ledger)
  {
    var r := StartReferral(l, invitee, payload).ledger;
    forall k
      ensures Count(r.credits, k) == Count(r.referrals, k) / RewardEvery
    {
      assert Count(l.credits, k) == Count(l.referrals, k) / RewardEvery;
    }
  }

  /** `/start` with `payload` from each chat of `invitees` in turn. */
  function StartAll(l: Ledger, invitees: seq<int>, payload: Option<string>): Ledger
    decreases |invitees|
  {
    if |invitees| == 0 then l
    else StartAll(StartReferral(l, invitees[0], payload).ledger, invitees[1..], payload)
  }

  /**
   * `n` accepted invitations for one inviter raise its count by `n` and its
   * credits by the number of multiples of five passed on the way.
   */
  lemma {:induction false} StartAllCounts(l: Ledger, invitees: seq<int>, inviter: string)
    requires inviter != ""
    requires forall i :: 0 <= i < |invitees| ==> DecimalString(invitees[i]) != inviter
    ensures var r := StartAll(l, invitees, Some(RefPrefix + inviter));
      && Count(r.referrals, inviter) == Count(l.referrals, inviter) + |invitees|
      && Count(r.credits, inviter)
         == Count(l.credits, inviter) + (Count(l.referrals, inviter) + |invitees|) / RewardEvery
            - Count(l.referrals, inviter) / RewardEvery
    decreases |invitees|
  {
    var payload := Some(RefPrefix + inviter);
    if |invitees| > 0 {
      assert (RefPrefix + inviter)[|RefPrefix|..] == inviter;
      assert AcceptedInviter(payload, invitees[0]) == Some(inviter);
      var l' := StartReferral(l, invitees[0], payload).ledger;
      var c := Count(l.referrals, inviter);
      assert Count(l'.referrals, inviter) == c + 1;
      assert Count(l'.credits, inviter) == Count(l.credits, inviter) + (c + 1) / RewardEvery - c / RewardEvery;
      StartAllCounts(l', invitees[1..], inviter);
    }
  }

  /** From an empty ledger, `n` invitations give `n / 5` sure-shot credits. */
  lemma CreditsFromScratch(invitees: seq<int>, inviter: string)
    requires inviter != ""
    requires forall i :: 0 <= i < |invitees| ==> DecimalString(invitees[i]) != inviter
    ensures var r := StartAll(EmptyLedger, invitees, Some(RefPrefix + inviter));
      Count(r.credits, inviter) == |invitees| / RewardEvery
  {
    StartAllCounts(EmptyLedger, invitees, inviter);
  }

  /** No once-per-invitee rule: the same invitee sending the same link twice is counted twice. */
  lemma SameInviteeCountedTwice(l: Ledger, invitee: int, inviter: int)
    requires invitee != inviter
    ensures var p := Some(ReferralPayload(inviter));
      var twice := StartReferral(StartReferral(l, invitee, p).ledger, invitee, p).ledger;
      Count(twice.referrals, DecimalString(inviter)) == Count(l.referrals, DecimalString(inviter)) + 2
  {
    InviterOfLink(inviter, invitee);
  }

  /** The referral dashboard (`MY_REF`) for `chatId`: invitations counted and credits held. */
  datatype Standing = Standing(invites: nat, credits: nat)

  function Dashboard(l: Ledger, chatId: int): (d: Standing)
    ensures DecimalString(chatId) !in l.referrals ==> d.invites == 0
    ensures DecimalString(chatId) in l.referrals ==> d.invites == l.referrals[DecimalString(chatId)]
    ensures DecimalString(chatId) !in l.credits ==> d.credits == 0
    ensures DecimalString(chatId) in l.credits ==> d.credits == l.credits[DecimalString(chatId)]
    ensures RewardsMatch(l) ==> d.credits == d.invites / RewardEvery
  {
    Standing(Count(l.referrals, DecimalString(chatId)), Count(l.credits, DecimalString(chatId)))
  }

  /** The link of `inviter` names `inviter` for anyone else, and nobody for `inviter` itself. */
  lemma InviterOfLink(inviter: int, invitee: int)
    ensures invitee != inviter ==>
      AcceptedInviter(Some(ReferralPayload(inviter)), invitee) == Some(DecimalString(inviter))
    ensures invitee == inviter ==> AcceptedInviter(Some(ReferralPayload(inviter)), invitee) == None
  {
    assert ReferralPayload(inviter)[|RefPrefix|..] == DecimalString(inviter);
    if invitee != inviter && DecimalString(inviter) == DecimalString(invitee) {
      DecimalStringInjective(inviter, invitee);
    }
  }

  /**
   * The link the dashboard hands out, opened by another chat, arrives as
   * `/start REF_<id>` and raises the invitation count the dashboard shows by
   * one; opened by the inviter itself it changes nothing.
   */
  lemma ReferralLinkRoundTrip(l: Ledger, inviter: int, invitee: int)
    ensures MatchStart(Command + " " + ReferralPayload(inviter)) == StartWith(Some(ReferralPayload(inviter)))
    ensures var l' := StartReferral(l, invitee, Some(ReferralPayload(inviter))).ledger;
      && (invitee != inviter ==> Dashboard(l', inviter).invites == Dashboard(l, inviter).invites + 1)
      && (invitee == inviter ==> l' == l)
  {
    DeepLinkPayload(ReferralPayload(inviter));
    InviterOfLink(inviter, invitee);
  }
}
