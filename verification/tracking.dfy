/**
 * Who has used the bot: the persisted lists `allUsers`, `dailyUsers[day]` and
 * `monthlyUsers[month]` that `trackUser` appends to on every inbound event.
 * The day and month keys come from the wall clock in the bot; here they are
 * parameters.
 */
module Tracking {

  datatype Activity = Activity(
    allUsers: seq<int>,
    dailyUsers: map<string, seq<int>>,
    monthlyUsers: map<string, seq<int>>)

  const NoActivity := Activity([], map[], map[])

  /** Every chat id occurs at most once. */
  ghost predicate Distinct(xs: seq<int>) {
    forall x :: multiset(xs)[x] <= 1
  }

  /** The list stored under `key`, with a missing key read as the empty list (`m[key] || []`). */
  function Bucket(m: map<string, seq<int>>, key: string): seq<int> {
    if key in m then m[key] else []
  }

  /** All three kinds of list hold each chat id at most once. */
  ghost predicate Valid(a: Activity) {
    && Distinct(a.allUsers)
    && (forall d :: d in a.dailyUsers ==> Distinct(a.dailyUsers[d]))
    && (forall m :: m in a.monthlyUsers ==> Distinct(a.monthlyUsers[m]))
  }

  /** `if (!xs.includes(x)) xs.push(x)`. */
  function AddUnique(xs: seq<int>, x: int): (r: seq<int>)
    ensures x in r
    ensures xs <= r && |r| <= |xs| + 1
    ensures forall y :: y != x ==> multiset(r)[y] == multiset(xs)[y]
    ensures multiset(r)[x] == if x in xs then multiset(xs)[x] else 1
  {
    if x in xs then xs else xs + [x]
  }

  /** Adding to a list that already has every member once keeps that so. */
  lemma AddUniqueKeepsDistinct(xs: seq<int>, x: int)
    requires Distinct(xs)
    ensures Distinct(AddUnique(xs, x))
    ensures multiset(AddUnique(xs, x))[x] == 1
  {
    var r := AddUnique(xs, x);
    forall y
      ensures multiset(r)[y] <= 1
    {
      if y == x && x in xs {
        assert multiset(r)[y] == multiset(xs)[y];
      }
    }
  }

  /** `m[key] = m[key] || []; if (!m[key].includes(x)) m[key].push(x)`. */
  function AddToBucket(m: map<string, seq<int>>, key: string, x: int): (r: map<string, seq<int>>)
    ensures r.Keys == m.Keys + {key}
    ensures Bucket(r, key) == AddUnique(Bucket(m, key), x)
    ensures forall k :: k in m && k != key ==> r[k] == m[k]
  {
    m[key := AddUnique(Bucket(m, key), x)]
  }

  /** `trackUser(chatId)` on the day `day` of the month `month`. */
  function TrackUser(a: Activity, chatId: int, day: string, month: string): (r: Activity)
    ensures chatId in r.allUsers
    ensures chatId in Bucket(r.dailyUsers, day) && chatId in Bucket(r.monthlyUsers, month)
    ensures a.allUsers <= r.allUsers
    ensures Bucket(a.dailyUsers, day) <= Bucket(r.dailyUsers, day)
    ensures Bucket(a.monthlyUsers, month) <= Bucket(r.monthlyUsers, month)
    ensures r.dailyUsers.Keys == a.dailyUsers.Keys + {day}
    ensures r.monthlyUsers.Keys == a.monthlyUsers.Keys + {month}
    ensures forall d :: d in a.dailyUsers && d != day ==> r.dailyUsers[d] == a.dailyUsers[d]
    ensures forall m :: m in a.monthlyUsers && m != month ==> r.monthlyUsers[m] == a.monthlyUsers[m]
    ensures forall y :: y != chatId ==> multiset(r.allUsers)[y] == multiset(a.allUsers)[y]
    ensures forall y :: y != chatId ==>
      multiset(Bucket(r.dailyUsers, day))[y] == multiset(Bucket(a.dailyUsers, day))[y]
    ensures forall y :: y != chatId ==>
      multiset(Bucket(r.monthlyUsers, month))[y] == multiset(Bucket(a.monthlyUsers, month))[y]
  {
    Activity(
      AddUnique(a.allUsers, chatId),
      AddToBucket(a.dailyUsers, day, chatId),
      AddToBucket(a.monthlyUsers, month, chatId))
  }

  /**
   * Tracking keeps every list duplicate-free, and afterwards `chatId` occurs
   * exactly once in `allUsers`, in today's list and in this month's list.
   */
  lemma TrackUserValid(a: Activity, chatId: int, day: string, month: string)
    requires Valid(a)
    ensures Valid(TrackUser(a, chatId, day, month))
    ensures var r := TrackUser(a, chatId, day, month);
      && multiset(r.allUsers)[chatId] == 1
      && multiset(Bucket(r.dailyUsers, day))[chatId] == 1
      && multiset(Bucket(r.monthlyUsers, month))[chatId] == 1
  {
    var r := TrackUser(a, chatId, day, month);
    AddUniqueKeepsDistinct(a.allUsers, chatId);
    assert Distinct(Bucket(a.dailyUsers, day));
    assert Distinct(Bucket(a.monthlyUsers, month));
    AddUniqueKeepsDistinct(Bucket(a.dailyUsers, day), chatId);
    AddUniqueKeepsDistinct(Bucket(a.monthlyUsers, month), chatId);
  }

  /** Tracking the same chat twice on the same day changes nothing the second time. */
  lemma TrackUserIdempotent(a: Activity, chatId: int, day: string, month: string)
    ensures var once := TrackUser(a, chatId, day, month);
      TrackUser(once, chatId, day, month) == once
  {
    var once := TrackUser(a, chatId, day, month);
    assert AddToBucket(once.dailyUsers, day, chatId) == once.dailyUsers;
    assert AddToBucket(once.monthlyUsers, month, chatId) == once.monthlyUsers;
  }
}
