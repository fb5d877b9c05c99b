/** Recurring expense templates (`convex/recurring.js`): a table of templates that are
    created, listed, switched on and off, turned into expenses when due, and deleted. */
module Recurring {
  import opened Common
  import opened Ledger
  import Sorting

  /** A split as a template stores it: no `paid` flag. */
  datatype TemplateSplit = TemplateSplit(userId: UserId, amount: real, percentage: Option<real>)

  /** A row of `recurringExpenses`. */
  datatype Template = Template(
    id: Id,
    userId: UserId,
    description: string,
    amount: real,
    category: string,
    frequency: string,
    participants: seq<UserId>,
    groupId: Option<Id>,
    nextDue: Timestamp,
    lastCreated: Option<Timestamp>,
    isActive: bool,
    splitType: string,
    splits: seq<TemplateSplit>,
    createdAt: Timestamp)

  /** The local-calendar steps `setMonth(getMonth() + 1)` and `setFullYear(getFullYear() + 1)`
      applied to the current instant; they depend on the time zone and come in as values. */
  datatype Calendar = Calendar(addMonth: Timestamp -> Timestamp, addYear: Timestamp -> Timestamp)

  /** The frequencies the next-due rule knows. */
  predicate Known(frequency: string) {
    frequency == "weekly" || frequency == "biweekly" || frequency == "monthly" || frequency == "yearly"
  }

  /** The `switch` on the frequency: a known one counts one unit from `now`, an unknown one
      keeps `fallback` (the creation time on creation, the old due date afterwards). */
  function NextDue(frequency: string, now: Timestamp, fallback: Timestamp, cal: Calendar): (r: Timestamp)
    ensures frequency == "weekly" ==> r == now + 7 * Day
    ensures frequency == "biweekly" ==> r == now + 14 * Day
    ensures frequency == "monthly" ==> r == cal.addMonth(now)
    ensures frequency == "yearly" ==> r == cal.addYear(now)
    ensures !Known(frequency) ==> r == fallback
  {
    match frequency
    case "weekly" => now + 7 * Day
    case "biweekly" => now + 14 * Day
    case "monthly" => cal.addMonth(now)
    case "yearly" => cal.addYear(now)
    case _ => fallback
  }

  /** A known frequency never looks at the old due date, and moves the due date past
      `now` as long as the calendar steps move forward. */
  lemma NextDueFromNow(frequency: string, now: Timestamp, a: Timestamp, b: Timestamp, cal: Calendar)
    requires Known(frequency)
    requires cal.addMonth(now) > now && cal.addYear(now) > now
    ensures NextDue(frequency, now, a, cal) == NextDue(frequency, now, b, cal)
    ensures NextDue(frequency, now, a, cal) > now
  {
  }

  function TemplateId(t: Template): Id { t.id }
  function DueKey(t: Template): real { t.nextDue as real }

  function OwnedBy(user: UserId): Template -> bool { (t: Template) => t.userId == user }

  /** The `by_next_due` range `nextDue <= now` followed by the `isActive` filter. */
  function IsDue(now: Timestamp): (p: Template -> bool)
    ensures forall t :: p(t) <==> t.isActive && t.nextDue <= now
  {
    (t: Template) => t.nextDue <= now && t.isActive
  }

  function DueOn(d: Timestamp): Template -> bool { (t: Template) => t.nextDue == d }

  /** Sorting by due date keeps the templates of one due date in table order. */
  lemma SortByDueStable(ts: seq<Template>)
    ensures forall d :: Filter(Sorting.SortBy(ts, DueKey), DueOn(d)) == Filter(ts, DueOn(d))
  {
    forall d ensures Filter(Sorting.SortBy(ts, DueKey), DueOn(d)) == Filter(ts, DueOn(d)) {
      Sorting.SortByStable(ts, DueKey, DueOn(d));
    }
  }

  /** The template after it was materialised at `now`: only `nextDue` and `lastCreated` move. */
  function Advanced(t: Template, now: Timestamp, cal: Calendar): (r: Template)
    ensures r.nextDue == NextDue(t.frequency, now, t.nextDue, cal) && r.lastCreated == Some(now)
    ensures r.(nextDue := t.nextDue, lastCreated := t.lastCreated) == t
  {
    t.(nextDue := NextDue(t.frequency, now, t.nextDue, cal), lastCreated := Some(now))
  }

  /** Materialising a template of a known frequency makes it no longer due at `now`. */
  lemma AdvancedNotDue(t: Template, now: Timestamp, cal: Calendar)
    requires Known(t.frequency)
    requires cal.addMonth(now) > now && cal.addYear(now) > now
    ensures !IsDue(now)(Advanced(t, now, cal))
  {
    NextDueFromNow(t.frequency, now, t.nextDue, now, cal);
  }

  /** With a frequency the rule does not know, a due template stays due, so every run of
      the automated processing materialises it again. */
  lemma UnknownFrequencyStaysDue(t: Template, now: Timestamp, cal: Calendar)
    requires !Known(t.frequency) && IsDue(now)(t)
    ensures IsDue(now)(Advanced(t, now, cal))
  {
  }

  /** Materialising late drifts the schedule: a weekly template due at `due` and
      materialised a day later is next due eight days after `due`, not seven. */
  lemma WeeklyDrift(t: Template, due: Timestamp, cal: Calendar)
    requires t.frequency == "weekly" && t.nextDue == due
    ensures Advanced(t, due + Day, cal).nextDue == due + 8 * Day
  {
  }

  /** The splits handed to the expense action: same user and amount, and only the acting
      user's split is marked paid. */
  function PaidSplits(splits: seq<TemplateSplit>, user: UserId): (r: seq<Split>)
    ensures |r| == |splits|
    ensures forall i :: 0 <= i < |r| ==>
      r[i].userId == splits[i].userId && r[i].amount == splits[i].amount && (r[i].paid <==> splits[i].userId == user)
  {
    seq(|splits|, i requires 0 <= i < |splits| => Split(splits[i].userId, splits[i].amount, splits[i].userId == user))
  }

  function SplitAmount(s: Split): real { s.amount }
  function TemplateSplitAmount(s: TemplateSplit): real { s.amount }

  /** Copying the splits keeps their total. */
  lemma {:induction false} PaidSplitsTotal(splits: seq<TemplateSplit>, user: UserId)
    ensures Sorting.SumBy(PaidSplits(splits, user), SplitAmount) == Sorting.SumBy(splits, TemplateSplitAmount)
  {
    if splits != [] {
      PaidSplitsTotal(splits[1..], user);
      assert PaidSplits(splits, user)[1..] == PaidSplits(splits[1..], user);
    }
  }

  /** The expense `createExpenseFromRecurring` asks the expense action to create. */
  function Draft(t: Template, user: UserId, now: Timestamp): (d: ExpenseDraft)
    ensures d.description == t.description && d.amount == t.amount && d.category == Some(t.category)
    ensures d.date == now && d.paidByUserId == user && d.splitType == t.splitType
    ensures d.splits == PaidSplits(t.splits, user)
    ensures d.groupId == t.groupId && d.recurringExpenseId == Some(t.id)
  {
    ExpenseDraft(t.description, t.amount, Some(t.category), now, user, t.splitType,
                 PaidSplits(t.splits, user), t.groupId, Some(t.id))
  }

  /** The `recurringExpenses` table. */
  class RecurringTable {
    var rows: seq<Template>
    var nextId: Id

    ghost predicate Valid()
      reads this
    {
      IdsFresh(rows, TemplateId, nextId)
    }

    constructor ()
      ensures Valid() && rows == []
    {
      rows := [];
      nextId := 0;
    }

    /** `createRecurringExpense`: a new active template that was never materialised,
        due one frequency unit after `now`. */
    method Create(user: UserId, description: string, amount: real, category: string, frequency: string,
                  participants: seq<UserId>, groupId: Option<Id>, splitType: string, splits: seq<TemplateSplit>,
                  now: Timestamp, cal: Calendar)
      returns (id: Id)
      requires Valid()
      modifies this
      ensures Valid()
      ensures id == old(nextId) && nextId == old(nextId) + 1
      ensures rows == old(rows) + [Template(id, user, description, amount, category, frequency, participants, groupId,
                                            NextDue(frequency, now, now, cal), None, true, splitType, splits, now)]
    {
      var nextDue := now;
      match frequency {
        case "weekly" => nextDue := now + 7 * Day;
        case "biweekly" => nextDue := now + 14 * Day;
        case "monthly" => nextDue := cal.addMonth(now);
        case "yearly" => nextDue := cal.addYear(now);
        case _ =>
      }
      var t := Template(nextId, user, description, amount, category, frequency, participants, groupId,
                        nextDue, None, true, splitType, splits, now);
      IdsFreshSnoc(rows, TemplateId, nextId, t);
      rows := rows + [t];
      id := nextId;
      nextId := nextId + 1;
    }

    /** `getRecurringExpenses`: the user's templates, soonest due first (ties in table order). */
    function List(user: UserId): (r: seq<Template>)
      reads this
      ensures multiset(r) == multiset(Filter(rows, OwnedBy(user)))
      ensures forall t :: t in r <==> t in rows && t.userId == user
      ensures forall i, j :: 0 <= i < j < |r| ==> r[i].nextDue <= r[j].nextDue
      ensures forall d :: Filter(r, DueOn(d)) == Filter(Filter(rows, OwnedBy(user)), DueOn(d))
    {
      SortByDueStable(Filter(rows, OwnedBy(user)));
      Sorting.SortBySorted(Filter(rows, OwnedBy(user)), DueKey);
      Sorting.SortByMembers(Filter(rows, OwnedBy(user)), DueKey);
      Sorting.SortBy(Filter(rows, OwnedBy(user)), DueKey)
    }

    /** `getDueRecurringExpenses`: the active templates of every user whose due date has
        come, in due-date order as the `by_next_due` index returns them (ties in table order). */
    function Due(now: Timestamp): (r: seq<Template>)
      reads this
      ensures multiset(r) == multiset(Filter(rows, IsDue(now)))
      ensures forall t :: t in r <==> t in rows && t.nextDue <= now && t.isActive
      ensures forall i, j :: 0 <= i < j < |r| ==> r[i].nextDue <= r[j].nextDue
      ensures forall d :: Filter(r, DueOn(d)) == Filter(Filter(rows, IsDue(now)), DueOn(d))
    {
      SortByDueStable(Filter(rows, IsDue(now)));
      Sorting.SortBySorted(Filter(rows, IsDue(now)), DueKey);
      Sorting.SortByMembers(Filter(rows, IsDue(now)), DueKey);
      Sorting.SortBy(Filter(rows, IsDue(now)), DueKey)
    }

    /** `ctx.db.get(id)` with the ownership check: the position of the template, if it
        exists and belongs to `user`. */
    function Owned(id: Id, user: UserId): (r: Option<nat>)
      reads this
      requires Valid()
      ensures r.Some? ==> r.value < |rows| && rows[r.value].id == id && rows[r.value].userId == user
      ensures r.None? ==> forall i :: 0 <= i < |rows| && rows[i].id == id ==> rows[i].userId != user
    {
      assert forall i :: 0 <= i < |rows| && rows[i].id == id ==> FindId(rows, TemplateId, id) == Some(i) by {
        forall i | 0 <= i < |rows| && rows[i].id == id ensures FindId(rows, TemplateId, id) == Some(i) {
          FindIdUnique(rows, TemplateId, nextId, id, i);
        }
      }
      match FindId(rows, TemplateId, id)
      case None => None
      case Some(k) => if rows[k].userId == user then Some(k) else None
    }

    /** `toggleRecurringExpense`: sets `isActive` and nothing else, on the user's own template. */
    method Toggle(id: Id, isActive: bool, user: UserId) returns (outcome: Outcome)
      requires Valid()
      modifies this
      ensures Valid() && nextId == old(nextId)
      ensures var k := old(Owned(id, user));
        if k.None? then outcome == Failed(NotFoundOrUnauthorized) && rows == old(rows)
        else outcome == Done && rows == old(rows)[k.value := old(rows)[k.value].(isActive := isActive)]
    {
      var k := Owned(id, user);
      if k.None? {
        return Failed(NotFoundOrUnauthorized);
      }
      IdsFreshUpdate(rows, TemplateId, nextId, k.value, rows[k.value].(isActive := isActive));
      rows := rows[k.value := rows[k.value].(isActive := isActive)];
      outcome := Done;
    }

    /** `createExpenseFromRecurring`: the user's own template, if active, yields an expense
        dated `now`, and its `nextDue` and `lastCreated` advance. */
    method Materialise(id: Id, user: UserId, now: Timestamp, cal: Calendar) returns (result: Result<ExpenseDraft>)
      requires Valid()
      modifies this
      ensures Valid() && nextId == old(nextId)
      ensures var k := old(Owned(id, user));
        if k.None? then result == Err(NotFoundOrUnauthorized) && rows == old(rows)
        else if !old(rows)[k.value].isActive then result == Err(NotActive) && rows == old(rows)
        else
          && result == Ok(Draft(old(rows)[k.value], user, now))
          && rows == old(rows)[k.value := Advanced(old(rows)[k.value], now, cal)]
    {
      var k := Owned(id, user);
      if k.None? {
        return Err(NotFoundOrUnauthorized);
      }
      var t := rows[k.value];
      if !t.isActive {
        return Err(NotActive);
      }
      result := Ok(Draft(t, user, now));
      var nextDue := t.nextDue;
      match t.frequency {
        case "weekly" => nextDue := now + 7 * Day;
        case "biweekly" => nextDue := now + 14 * Day;
        case "monthly" => nextDue := cal.addMonth(now);
        case "yearly" => nextDue := cal.addYear(now);
        case _ =>
      }
      IdsFreshUpdate(rows, TemplateId, nextId, k.value, t.(nextDue := nextDue, lastCreated := Some(now)));
      rows := rows[k.value := t.(nextDue := nextDue, lastCreated := Some(now))];
    }

    /** `deleteRecurringExpense`: removes the user's own template and no other row. */
    method Delete(id: Id, user: UserId) returns (outcome: Outcome)
      requires Valid()
      modifies this
      ensures Valid() && nextId == old(nextId)
      ensures var k := old(Owned(id, user));
        if k.None? then outcome == Failed(NotFoundOrUnauthorized) && rows == old(rows)
        else outcome == Done && rows == old(rows)[..k.value] + old(rows)[k.value + 1..]
      ensures outcome == Done ==> forall t :: t in rows <==> t in old(rows) && t.id != id
    {
      var k := Owned(id, user);
      if k.None? {
        return Failed(NotFoundOrUnauthorized);
      }
      IdsFreshRemove(rows, TemplateId, nextId, k.value);
      RemoveMembers(rows, TemplateId, nextId, k.value);
      rows := rows[..k.value] + rows[k.value + 1..];
      outcome := Done;
    }
  }
}
