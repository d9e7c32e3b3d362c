/**
 * The per-chat conversation `USERS[chatId]` that walks a user from the
 * "Start Prediction" button to a predicted next period: a three-digit period,
 * then a digit, then BIG or SMALL, then a colour. Text arrives through the
 * `message` handler, buttons through the `callback_query` handler and `/start`
 * resets the conversation.
 */
module Conversation {
  import opened Optional
  import opened Strings

  /** `USERS[chatId].step`: 0, 1, 2, 3 and 4 in this order. */
  datatype Phase = Idle | AwaitPeriod | AwaitNumber | AwaitSize | AwaitColour

  /** `/^\d{3}$/`: exactly three ASCII digits, nothing before or after. */
  predicate IsPeriodText(s: string) {
    |s| == 3 && AllDigits(s)
  }

  /** `/^[0-9]$/`: exactly one ASCII digit. */
  predicate IsNumberText(s: string) {
    |s| == 1 && IsDigit(s[0])
  }

  predicate IsSizeChoice(data: string) {
    data == "BIG" || data == "SMALL"
  }

  /** `["RED", "GREEN", "VIOLET"].includes(data)`. */
  predicate IsColourChoice(data: string) {
    data == "RED" || data == "GREEN" || data == "VIOLET"
  }

  type PeriodText = s: string | IsPeriodText(s) witness "000"
  type NumberText = s: string | IsNumberText(s) witness "0"
  type SizeChoice = s: string | IsSizeChoice(s) witness "BIG"

  /** The fields of `USERS[chatId]`; a field never assigned is `None`. */
  datatype Session = Session(
    phase: Phase,
    period: Option<PeriodText>,
    number: Option<NumberText>,
    size: Option<SizeChoice>)

  /** `{ step: 0 }`, also what a chat without an entry is read as. */
  const Fresh := Session(Idle, None, None, None)

  datatype Event = Start | Button(data: string) | Text(text: string)

  /** Which message the bot answers with; the wording is not modelled. */
  datatype Reply =
    | Welcome
    | AskPeriod
    | ShowReferrals
    | AskNumber
    | PeriodInvalid
    | AskSize
    | NumberInvalid
    | AskColour
    | Expired
    | Predicted(next: int)
    | Silent

  datatype Transition = Transition(session: Session, reply: Reply)

  /** The three-digit rendering of a period number, leading zeros kept. */
  function Pad3(n: nat): (s: string)
    requires n < 1000
    ensures IsPeriodText(s) && ParseDigits(s) == n
  {
    var s := [DigitChar(n / 100), DigitChar(n / 10 % 10), DigitChar(n % 10)];
    assert s[..2][..1][..0] == [];
    assert ParseDigits(s[..2][..1]) == n / 100;
    assert ParseDigits(s[..2]) == n / 100 * 10 + n / 10 % 10;
    assert ParseDigits(s) == (n / 100 * 10 + n / 10 % 10) * 10 + n % 10;
    s
  }

  /** The three decimal digits of `100 * a + 10 * b + c` are `a`, `b` and `c`. */
  lemma ThreeDigitsOf(a: nat, b: nat, c: nat)
    requires a < 10 && b < 10 && c < 10
    ensures var n := 100 * a + 10 * b + c;
      n / 100 == a && n / 10 % 10 == b && n % 10 == c
  {
    var n := 100 * a + 10 * b + c;
    assert n == 10 * (10 * a + b) + c;
    assert n / 10 == 10 * a + b;
    assert n == 100 * a + (10 * b + c) && 10 * b + c < 100;
  }

  /** Every accepted period text is the rendering of the number it parses to. */
  lemma PeriodTextIsPad3(s: string)
    requires IsPeriodText(s)
    ensures ParseDigits(s) < 1000 && Pad3(ParseDigits(s)) == s
  {
    assert s[..2][..1] == s[..1];
    var a, b, c := DigitValue(s[0]), DigitValue(s[1]), DigitValue(s[2]);
    assert ParseDigits(s[..1]) == a by {
      assert s[..1][..0] == [];
    }
    assert ParseDigits(s) == 100 * a + 10 * b + c;
    ThreeDigitsOf(a, b, c);
    var t := Pad3(ParseDigits(s));
    assert t[0] == s[0] && t[1] == s[1] && t[2] == s[2];
  }

  /** `parseInt(period, 10) + 1`, the period the prediction is for. */
  function NextPeriod(period: PeriodText): (next: int)
    ensures 1 <= next <= 1000 && Pad3(next - 1) == period
  {
    PeriodTextIsPad3(period);
    ParseDigits(period) + 1
  }

  /** The `callback_query` handler's effect on the conversation (`query.data` is `data`). */
  function OnButton(s: Session, data: string): (t: Transition)
    ensures data == "START_PRED" ==> t == Transition(s.(phase := AwaitPeriod), AskPeriod)
    ensures data == "MY_REF" ==> t == Transition(s, ShowReferrals)
    ensures s.phase == AwaitSize && IsSizeChoice(data) ==>
      t == Transition(s.(phase := AwaitColour, size := Some(data)), AskColour)
    ensures s.phase == AwaitColour && IsColourChoice(data) ==> t.session == Fresh
    ensures t.reply == Expired <==> s.phase == AwaitColour && IsColourChoice(data) && s.period.None?
    ensures t.reply.Predicted? <==> s.phase == AwaitColour && IsColourChoice(data) && s.period.Some?
    ensures t.reply.Predicted? ==> 1 <= t.reply.next <= 1000 && Pad3(t.reply.next - 1) == s.period.value
    ensures t.session != s ==>
      || data == "START_PRED"
      || (s.phase == AwaitSize && IsSizeChoice(data))
      || (s.phase == AwaitColour && IsColourChoice(data))
    ensures !(|| data == "START_PRED" || data == "MY_REF"
              || (s.phase == AwaitSize && IsSizeChoice(data))
              || (s.phase == AwaitColour && IsColourChoice(data))) ==>
      t == Transition(s, Silent)
  {
    if data == "START_PRED" then Transition(s.(phase := AwaitPeriod), AskPeriod)
    else if data == "MY_REF" then Transition(s, ShowReferrals)
    else if s.phase == AwaitSize && IsSizeChoice(data) then
      Transition(s.(phase := AwaitColour, size := Some(data)), AskColour)
    else if s.phase == AwaitColour && IsColourChoice(data) then
      match s.period
      case None => Transition(Fresh, Expired)
      case Some(p) => Transition(Fresh, Predicted(NextPeriod(p)))
    else Transition(s, Silent)
  }

  /** The `message` handler's effect on the conversation (`msg.text` is `text`). */
  function OnText(s: Session, text: string): (t: Transition)
    ensures s.phase == AwaitPeriod && text != "" ==>
      && (IsPeriodText(text) <==> t.session.phase == AwaitNumber)
      && (IsPeriodText(text) ==> t == Transition(s.(phase := AwaitNumber, period := Some(text)), AskNumber))
      && (!IsPeriodText(text) ==> t == Transition(s, PeriodInvalid))
    ensures s.phase == AwaitNumber && text != "" ==>
      && (IsNumberText(text) <==> t.session.phase == AwaitSize)
      && (IsNumberText(text) ==> t == Transition(s.(phase := AwaitSize, number := Some(text)), AskSize))
      && (!IsNumberText(text) ==> t == Transition(s, NumberInvalid))
    ensures s.phase !in {AwaitPeriod, AwaitNumber} || text == "" ==> t == Transition(s, Silent)
    ensures t.session.size == s.size
  {
    if text == "" then Transition(s, Silent)
    else if s.phase == AwaitPeriod then
      if IsPeriodText(text) then Transition(s.(phase := AwaitNumber, period := Some(text)), AskNumber)
      else Transition(s, PeriodInvalid)
    else if s.phase == AwaitNumber then
      if IsNumberText(text) then Transition(s.(phase := AwaitSize, number := Some(text)), AskSize)
      else Transition(s, NumberInvalid)
    else Transition(s, Silent)
  }

  /** One event for one chat: `/start` replaces the session with `{ step: 0 }`. */
  function Step(s: Session, e: Event): (t: Transition)
    ensures e.Start? ==> t.session == Fresh
    ensures t.reply == Expired ==> s.phase == AwaitColour && s.period.None?
  {
    match e
    case Start => Transition(Fresh, Welcome)
    case Button(data) => OnButton(s, data)
    case Text(text) => OnText(s, text)
  }

  /**
   * What the machine itself can produce: a session past a step holds the
   * value that step collects.
   */
  predicate Consistent(s: Session) {
    && (s.phase in {AwaitNumber, AwaitSize, AwaitColour} ==> s.period.Some?)
    && (s.phase in {AwaitSize, AwaitColour} ==> s.number.Some?)
    && (s.phase == AwaitColour ==> s.size.Some?)
  }

  /** Every event keeps a consistent session consistent, and such a session never expires. */
  lemma StepKeepsConsistent(s: Session, e: Event)
    requires Consistent(s)
    ensures Consistent(Step(s, e).session)
    ensures Step(s, e).reply != Expired
  {
  }

  datatype Trace = Trace(session: Session, replies: seq<Reply>)

  /** The session after `events` in order, and the replies given on the way. */
  function Run(s: Session, events: seq<Event>): (r: Trace)
    ensures |r.replies| == |events|
    decreases |events|
  {
    if |events| == 0 then Trace(s, [])
    else
      var t := Step(s, events[0]);
      var rest := Run(t.session, events[1..]);
      Trace(rest.session, [t.reply] + rest.replies)
  }

  /**
   * Within one process lifetime the "session expired" branch is never taken:
   * from `{ step: 0 }` no sequence of events reaches the colour step without a
   * period.
   */
  lemma {:induction false} RunNeverExpires(s: Session, events: seq<Event>)
    requires Consistent(s)
    ensures Consistent(Run(s, events).session)
    ensures forall i :: 0 <= i < |events| ==> Run(s, events).replies[i] != Expired
    decreases |events|
  {
    if |events| > 0 {
      StepKeepsConsistent(s, events[0]);
      RunNeverExpires(Step(s, events[0]).session, events[1..]);
    }
  }

  /**
   * A whole round from any session: "Start Prediction", the period `n` as three
   * digits, a digit, a size and a colour give the prediction for period `n + 1`
   * and leave the chat at step 0 with nothing collected.
   */
  lemma Round(s: Session, n: nat, d: nat, size: string, colour: string)
    requires n < 1000 && d < 10
    requires IsSizeChoice(size) && IsColourChoice(colour)
    ensures Run(s, [Button("START_PRED"), Text(Pad3(n)), Text([DigitChar(d)]), Button(size), Button(colour)])
      == Trace(Fresh, [AskPeriod, AskNumber, AskSize, AskColour, Predicted(n + 1)])
  {
    var events := [Button("START_PRED"), Text(Pad3(n)), Text([DigitChar(d)]), Button(size), Button(colour)];
    var s1 := s.(phase := AwaitPeriod);
    var s2 := s1.(phase := AwaitNumber, period := Some(Pad3(n)));
    var s3 := s2.(phase := AwaitSize, number := Some([DigitChar(d)]));
    var s4 := s3.(phase := AwaitColour, size := Some(size));
    PeriodTextIsPad3(Pad3(n));
    assert Step(s4, Button(colour)) == Transition(Fresh, Predicted(n + 1));
    assert events[1..][1..][1..][1..][1..] == [];
    assert Run(s4, events[1..][1..][1..][1..]) == Trace(Fresh, [Predicted(n + 1)]);
    assert Run(s3, events[1..][1..][1..]) == Trace(Fresh, [AskColour, Predicted(n + 1)]);
    assert Run(s2, events[1..][1..]) == Trace(Fresh, [AskSize, AskColour, Predicted(n + 1)]);
    assert Run(s1, events[1..]) == Trace(Fresh, [AskNumber, AskSize, AskColour, Predicted(n + 1)]);
  }

  /** A sample round: period 556, digit 7, BIG and RED predict period 557. */
  lemma ExampleRound()
    ensures Run(Fresh, [Button("START_PRED"), Text("556"), Text("7"), Button("BIG"), Button("RED")])
      == Trace(Fresh, [AskPeriod, AskNumber, AskSize, AskColour, Predicted(557)])
  {
    assert Pad3(556) == "556";
    assert [DigitChar(7)] == "7";
    Round(Fresh, 556, 7, "BIG", "RED");
  }
}
