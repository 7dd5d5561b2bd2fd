/**
 * Data shapes of the attendance tracker and the subscription status engine.
 *
 * Calendar dates are day numbers (days since an epoch, in local time);
 * instants used by the status engine are local wall-clock milliseconds.
 * Timestamps stored on records (`createdAt`, `updatedAt`) are opaque ISO
 * strings supplied by the caller.
 */
module Types {
  import opened Lists

  /** The five courses offered. */
  datatype Course = ComputerLiteracy | Development | Design | Robotics | Modelling3D

  /** A class pass: a date window and a number of purchased classes. */
  datatype Subscription = Subscription(
    startDate: int,
    endDate: int,
    totalClasses: int,
    usedClasses: int)

  datatype Student = Student(
    id: string,
    fullName: string,
    age: int,
    parentPhone: string,
    course: Course,
    subscription: Subscription,
    notes: Option<string>,
    createdAt: string,
    updatedAt: string)

  /** One attendance mark; `date` is the `YYYY-MM-DD` text the records are keyed on. */
  datatype AttendanceRecord = AttendanceRecord(
    id: string,
    studentId: string,
    date: string,
    present: bool,
    notes: Option<string>,
    createdAt: string)

  datatype SubscriptionStatus = Active | Expiring | Expired | Exhausted

  const MS_PER_DAY: int := 1000 * 60 * 60 * 24

  /** Milliseconds from midnight to 23:59:59.999. */
  const END_OF_DAY_OFFSET: int := 23 * 60 * 60 * 1000 + 59 * 60 * 1000 + 59 * 1000 + 999

  /** The calendar day containing the instant `ms`. */
  function DayOf(ms: int): int {
    ms / MS_PER_DAY
  }

  /** `setHours(0, 0, 0, 0)`: the first millisecond of the day containing `ms`. */
  function StartOfDay(ms: int): (r: int)
    ensures r % MS_PER_DAY == 0
    ensures r <= ms < r + MS_PER_DAY
    ensures DayOf(r) == DayOf(ms)
  {
    DayOf(ms) * MS_PER_DAY
  }

  /** `setHours(23, 59, 59, 999)` on a calendar day: its last millisecond. */
  function EndOfDay(day: int): (r: int)
    ensures DayOf(r) == day && DayOf(r + 1) == day + 1
  {
    day * MS_PER_DAY + END_OF_DAY_OFFSET
  }

  /** `Math.ceil(a / b)` for a positive divisor, on exact integers. */
  function CeilDiv(a: int, b: int): (q: int)
    requires b > 0
    ensures (q - 1) * b < a <= q * b
  {
    -((-a) / b)
  }

  /**
   * `daysUntilEnd`: whole days from the start of today to the end of the end
   * date, rounded up. The end date itself therefore counts as one day left,
   * and an end date of yesterday gives 0 (JavaScript's `-0`), not a negative.
   */
  function DaysUntilEnd(subscription: Subscription, nowMs: int): (d: int)
    ensures d == subscription.endDate - DayOf(nowMs) + 1
  {
    var diff := EndOfDay(subscription.endDate) - StartOfDay(nowMs);
    var d := CeilDiv(diff, MS_PER_DAY);
    assert diff == (subscription.endDate - DayOf(nowMs)) * MS_PER_DAY + END_OF_DAY_OFFSET;
    d
  }

  /** Classes still available on the pass; none are left once the used count reaches the total. */
  function ClassesLeft(subscription: Subscription): (n: int)
    ensures n + subscription.usedClasses == subscription.totalClasses
    ensures n <= 0 <==> subscription.usedClasses >= subscription.totalClasses
  {
    subscription.totalClasses - subscription.usedClasses
  }

  /**
   * `getSubscriptionStatus`, with the checks in the source's order: out of
   * classes, then past the end date, then within a week or three classes.
   * The contract restates each outcome in calendar days.
   */
  function GetSubscriptionStatus(subscription: Subscription, nowMs: int): (r: SubscriptionStatus)
    ensures r == Exhausted <==> ClassesLeft(subscription) <= 0
    ensures r == Expired <==>
      ClassesLeft(subscription) > 0 && subscription.endDate <= DayOf(nowMs) - 2
    ensures r == Expiring <==>
      ClassesLeft(subscription) > 0 && subscription.endDate >= DayOf(nowMs) - 1 &&
      (subscription.endDate <= DayOf(nowMs) + 6 || ClassesLeft(subscription) <= 3)
    ensures r == Active <==>
      ClassesLeft(subscription) > 3 && subscription.endDate >= DayOf(nowMs) + 7
  {
    var daysUntilEnd := DaysUntilEnd(subscription, nowMs);
    var classesLeft := ClassesLeft(subscription);
    if classesLeft <= 0 then Exhausted
    else if daysUntilEnd < 0 then Expired
    else if daysUntilEnd <= 7 || classesLeft <= 3 then Expiring
    else Active
  }

  /** The status depends on the day of `nowMs`, not on its time of day. */
  lemma StatusIgnoresTimeOfDay(subscription: Subscription, a: int, b: int)
    requires DayOf(a) == DayOf(b)
    ensures GetSubscriptionStatus(subscription, a) == GetSubscriptionStatus(subscription, b)
  {
  }

  /** An end date of today or yesterday is not yet expired; two days ago is. */
  lemma {:induction false} GraceDay(subscription: Subscription, nowMs: int)
    requires ClassesLeft(subscription) > 0
    ensures subscription.endDate == DayOf(nowMs) ==> DaysUntilEnd(subscription, nowMs) == 1
    ensures subscription.endDate == DayOf(nowMs) - 1 ==>
      DaysUntilEnd(subscription, nowMs) == 0 && GetSubscriptionStatus(subscription, nowMs) == Expiring
    ensures subscription.endDate == DayOf(nowMs) - 2 ==>
      GetSubscriptionStatus(subscription, nowMs) == Expired
  {
  }

  /** Eight classes, five used, ending in six days: expiring on the class count. */
  lemma ThreeClassesLeftIsExpiring(nowMs: int)
    ensures GetSubscriptionStatus(Subscription(0, DayOf(nowMs) + 6, 8, 5), nowMs) == Expiring
  {
  }

  /** Eight of eight classes used, ending in sixty days: exhausted. */
  lemma AllClassesUsedIsExhausted(nowMs: int)
    ensures GetSubscriptionStatus(Subscription(0, DayOf(nowMs) + 60, 8, 8), nowMs) == Exhausted
  {
  }

  /** The grouping the dashboard statistics use: expired and exhausted together. */
  predicate IsLapsed(status: SubscriptionStatus) {
    status == Expired || status == Exhausted
  }

  /** `getSubscriptionStatusColor`. */
  function StatusColor(status: SubscriptionStatus): (r: string)
    ensures r == "bg-green-500" <==> status == Active
    ensures r == "bg-yellow-500" <==> status == Expiring
    ensures r == "bg-red-500" <==> IsLapsed(status)
  {
    match status
    case Active => "bg-green-500"
    case Expiring => "bg-yellow-500"
    case Expired => "bg-red-500"
    case Exhausted => "bg-red-500"
  }

  /** `getSubscriptionStatusText`. */
  function StatusText(status: SubscriptionStatus): (r: string)
    ensures r == "Активен" <==> status == Active
    ensures r == "Заканчивается" <==> status == Expiring
    ensures r == "Просрочен" <==> status == Expired
    ensures r == "Исчерпан" <==> status == Exhausted
  {
    match status
    case Active => "Активен"
    case Expiring => "Заканчивается"
    case Expired => "Просрочен"
    case Exhausted => "Исчерпан"
  }

  datatype BadgeVariant = Default | Secondary | Destructive | Outline

  /** `getSubscriptionStatusBadgeVariant`. */
  function StatusBadgeVariant(status: SubscriptionStatus): (r: BadgeVariant)
    ensures r == Default <==> status == Active
    ensures r == Secondary <==> status == Expiring
    ensures r == Destructive <==> IsLapsed(status)
  {
    match status
    case Active => Default
    case Expiring => Secondary
    case Expired => Destructive
    case Exhausted => Destructive
  }

  /** Two statuses get the same colour exactly when they are equal or both lapsed; grey never occurs. */
  lemma ColorSeparatesGroups(a: SubscriptionStatus, b: SubscriptionStatus)
    ensures StatusColor(a) == StatusColor(b) <==> a == b || (IsLapsed(a) && IsLapsed(b))
    ensures StatusColor(a) != "bg-gray-500"
  {
  }

  /** The badge variant groups statuses the same way; `outline` never occurs. */
  lemma BadgeSeparatesGroups(a: SubscriptionStatus, b: SubscriptionStatus)
    ensures StatusBadgeVariant(a) == StatusBadgeVariant(b) <==> a == b || (IsLapsed(a) && IsLapsed(b))
    ensures StatusBadgeVariant(a) != Outline
  {
  }

  /** The four labels are distinct, and the fallback label never occurs. */
  lemma TextIsInjective(a: SubscriptionStatus, b: SubscriptionStatus)
    ensures StatusText(a) == StatusText(b) <==> a == b
    ensures StatusText(a) != "Неизвестно"
  {
  }
}
