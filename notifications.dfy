/** The notification deriver: which companies are overdue and which are due today. */
module Notifications {
  import opened Domain

  datatype Notice = Overdue | DueToday | Quiet

  /** The date a company's next contact is due: the active schedule's date when the company has one,
      otherwise its own `nextCommunication`, otherwise none. */
  function EffectiveDate(c: Company, active: map<Id, Schedule>): Option<Date>
  {
    if c.id in active then Some(active[c.id].scheduledDate) else c.nextCommunication
  }

  /** Day-granularity comparison of an effective date with today. */
  function Classify(d: Option<Date>, today: Date): Notice
  {
    match d
    case None => Quiet
    case Some(day) => if day < today then Overdue else if day == today then DueToday else Quiet
  }

  function NoticeOf(c: Company, active: map<Id, Schedule>, today: Date): Notice
  {
    Classify(EffectiveDate(c, active), today)
  }

  /** The companies of `cs` whose notice is `k`, in the order of `cs`. */
  function Select(cs: seq<Company>, active: map<Id, Schedule>, today: Date, k: Notice): seq<Company>
  {
    if cs == [] then []
    else
      var last := cs[|cs| - 1];
      Select(cs[..|cs| - 1], active, today, k) + (if NoticeOf(last, active, today) == k then [last] else [])
  }

  /** The number of companies whose effective date exists and is not after today. */
  function CountDue(cs: seq<Company>, active: map<Id, Schedule>, today: Date): nat
  {
    if cs == [] then 0
    else
      var d := EffectiveDate(cs[|cs| - 1], active);
      CountDue(cs[..|cs| - 1], active, today) + (if d.Some? && d.value <= today then 1 else 0)
  }

  /** computeNotifications: one pass over the companies, pushing each onto at most one list. */
  method ComputeNotifications(companies: seq<Company>, active: map<Id, Schedule>, today: Date)
    returns (overdue: seq<Company>, dueToday: seq<Company>)
    ensures overdue == Select(companies, active, today, Overdue)
    ensures dueToday == Select(companies, active, today, DueToday)
    ensures forall c :: c in overdue <==> c in companies && NoticeOf(c, active, today) == Overdue
    ensures forall c :: c in dueToday <==> c in companies && NoticeOf(c, active, today) == DueToday
  {
    overdue, dueToday := [], [];
    var i := 0;
    while i < |companies|
      invariant 0 <= i <= |companies|
      invariant overdue == Select(companies[..i], active, today, Overdue)
      invariant dueToday == Select(companies[..i], active, today, DueToday)
    {
      var company := companies[i];
      assert companies[..i + 1][..i] == companies[..i];
      if company.id in active {
        var scheduledDate := active[company.id].scheduledDate;
        if scheduledDate < today {
          overdue := overdue + [company];
        } else if scheduledDate == today {
          dueToday := dueToday + [company];
        }
      } else if company.nextCommunication.Some? {
        var nextDate := company.nextCommunication.value;
        if nextDate < today {
          overdue := overdue + [company];
        } else if nextDate == today {
          dueToday := dueToday + [company];
        }
      }
      i := i + 1;
    }
    assert companies[..i] == companies;
    SelectMembership(companies, active, today, Overdue);
    SelectMembership(companies, active, today, DueToday);
  }

  /** A company is selected exactly when it is one of the companies and its notice matches. */
  lemma {:induction false} SelectMembership(cs: seq<Company>, active: map<Id, Schedule>, today: Date, k: Notice)
    ensures forall c :: c in Select(cs, active, today, k) <==> c in cs && NoticeOf(c, active, today) == k
  {
    if cs != [] {
      var init := cs[..|cs| - 1];
      SelectMembership(init, active, today, k);
      assert cs == init + [cs[|cs| - 1]];
    }
  }

  /** Selection distributes over concatenation: the lists keep the order of the companies. */
  lemma {:induction false} SelectConcat(a: seq<Company>, b: seq<Company>, active: map<Id, Schedule>, today: Date, k: Notice)
    ensures Select(a + b, active, today, k) == Select(a, active, today, k) + Select(b, active, today, k)
  {
    if b != [] {
      var init := b[..|b| - 1];
      assert (a + b)[..|a + b| - 1] == a + init;
      SelectConcat(a, init, active, today, k);
    } else {
      assert a + b == a;
    }
  }

  /** No company is both overdue and due today, and every company lands in at most one list,
      at most as often as it occurs among the companies. */
  lemma {:induction false} NotificationsPartition(cs: seq<Company>, active: map<Id, Schedule>, today: Date)
    ensures multiset(Select(cs, active, today, Overdue)) + multiset(Select(cs, active, today, DueToday)) <= multiset(cs)
    ensures multiset(Select(cs, active, today, Overdue)) !! multiset(Select(cs, active, today, DueToday))
  {
    if cs != [] {
      var init := cs[..|cs| - 1];
      var last := cs[|cs| - 1];
      NotificationsPartition(init, active, today);
      assert cs == init + [last];
      var o := Select(init, active, today, Overdue);
      var d := Select(init, active, today, DueToday);
      var n := NoticeOf(last, active, today);
      assert multiset(Select(cs, active, today, Overdue)) == multiset(o) + (if n == Overdue then multiset{last} else multiset{});
      assert multiset(Select(cs, active, today, DueToday)) == multiset(d) + (if n == DueToday then multiset{last} else multiset{});
      assert multiset(cs) == multiset(init) + multiset{last};
      if n == Overdue {
        SelectMembership(init, active, today, DueToday);
        assert last !in d;
      } else if n == DueToday {
        SelectMembership(init, active, today, Overdue);
        assert last !in o;
      }
    }
  }

  /** The badge count, |overdue| + |dueToday|, is the number of companies due today or earlier. */
  lemma {:induction false} NotificationCountIsDueCount(cs: seq<Company>, active: map<Id, Schedule>, today: Date)
    ensures |Select(cs, active, today, Overdue)| + |Select(cs, active, today, DueToday)| == CountDue(cs, active, today)
  {
    if cs != [] {
      NotificationCountIsDueCount(cs[..|cs| - 1], active, today);
    }
  }

  /** The precedence rule: for a company with an active schedule, only the schedule's date decides;
      without one, `nextCommunication` decides; with neither, the company is in no list. */
  lemma EffectiveDateRule(cs: seq<Company>, active: map<Id, Schedule>, today: Date, c: Company)
    requires c in cs
    ensures c.id in active ==>
      (c in Select(cs, active, today, Overdue) <==> active[c.id].scheduledDate < today)
      && (c in Select(cs, active, today, DueToday) <==> active[c.id].scheduledDate == today)
    ensures c.id !in active && c.nextCommunication.Some? ==>
      (c in Select(cs, active, today, Overdue) <==> c.nextCommunication.value < today)
      && (c in Select(cs, active, today, DueToday) <==> c.nextCommunication.value == today)
    ensures c.id !in active && c.nextCommunication.None? ==>
      c !in Select(cs, active, today, Overdue) && c !in Select(cs, active, today, DueToday)
  {
    SelectMembership(cs, active, today, Overdue);
    SelectMembership(cs, active, today, DueToday);
  }

  /** While a company has an active schedule, changing its `nextCommunication` changes no notification. */
  lemma {:induction false} FallbackIgnoredWhileScheduled(cs: seq<Company>, active: map<Id, Schedule>, today: Date,
                                                          i: nat, next: Option<Date>, k: Notice)
    requires i < |cs| && cs[i].id in active
    ensures Ids(Select(cs[i := cs[i].(nextCommunication := next)], active, today, k)) == Ids(Select(cs, active, today, k))
  {
    var cs' := cs[i := cs[i].(nextCommunication := next)];
    forall j | 0 <= j < |cs|
      ensures cs'[j].id == cs[j].id && NoticeOf(cs'[j], active, today) == NoticeOf(cs[j], active, today)
    {
    }
    SelectIdsSameNotices(cs', cs, active, today, k);
  }

  /** Two lists of companies with the same ids and the same notices, position by position, select the
      same ids. */
  lemma {:induction false} SelectIdsSameNotices(a: seq<Company>, b: seq<Company>, active: map<Id, Schedule>,
                                                today: Date, k: Notice)
    requires |a| == |b|
    requires forall j :: 0 <= j < |a| ==> a[j].id == b[j].id && NoticeOf(a[j], active, today) == NoticeOf(b[j], active, today)
    ensures Ids(Select(a, active, today, k)) == Ids(Select(b, active, today, k))
  {
    if a != [] {
      var n := |a| - 1;
      SelectIdsSameNotices(a[..n], b[..n], active, today, k);
      SelectIdsStep(a, active, today, k);
      SelectIdsStep(b, active, today, k);
    }
  }

  /** The ids selected from a non-empty list: those selected from all but the last, then the last one's
      id if its notice matches. */
  lemma SelectIdsStep(cs: seq<Company>, active: map<Id, Schedule>, today: Date, k: Notice)
    requires cs != []
    ensures Ids(Select(cs, active, today, k)) == Ids(Select(cs[..|cs| - 1], active, today, k))
      + (if NoticeOf(cs[|cs| - 1], active, today) == k then [cs[|cs| - 1].id] else [])
  {
    var last := cs[|cs| - 1];
    IdsConcat(Select(cs[..|cs| - 1], active, today, k), if NoticeOf(last, active, today) == k then [last] else []);
  }

  lemma IdsConcat(a: seq<Company>, b: seq<Company>)
    ensures Ids(a + b) == Ids(a) + Ids(b)
  {
  }
}
