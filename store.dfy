/** The client-side application store: companies, methods, the recent-communication panels,
    the active schedules keyed by company, and the derived notifications.
    Every server call is represented by its outcome: a failed call (the `catch` branch) leaves the state as it was. */
module ClientStore {
  import opened Domain
  import opened Seqs
  import opened Notifications
  import opened Panels

  /** Days added to today when a company is saved without a next-communication date. */
  const DefaultPeriodicInterval := 14

  /** The server requests the store issues where the choice of request is part of its logic. */
  datatype Request =
    | PostSchedule(companyId: Id, communicationType: string, scheduledDate: Date)
    | PutSchedule(scheduleId: Id, communicationType: string, scheduledDate: Date)
    | DeleteSchedule(scheduleId: Id)
    | DeleteCommunication(communicationId: Id)

  /** The data the three initial requests return. */
  datatype InitialData = InitialData(companies: seq<Company>, methods: seq<Method>, schedules: seq<Schedule>)

  /** The form data passed to logCommunication. */
  datatype CommunicationData = CommunicationData(
    communicationType: string,
    communicationDate: int,
    notes: string,
    nextCommunication: Option<Date>)

  /** A company as it is sent by addCompany/updateCompany: a missing next-communication date becomes today + 14. */
  function WithDefaultNext(c: Company, today: Date): (r: Company)
    ensures c.nextCommunication.None? ==> r.nextCommunication == Some(today + DefaultPeriodicInterval)
    ensures c.nextCommunication.Some? ==> r == c
    ensures r.(nextCommunication := c.nextCommunication) == c
  {
    if c.nextCommunication.None? then c.(nextCommunication := Some(today + DefaultPeriodicInterval)) else c
  }

  /** The panels derived from freshly fetched companies, one per company, index-aligned. */
  function PanelsOf(cs: seq<Company>): (r: seq<seq<Recent>>)
    ensures |r| == |cs|
    ensures forall i :: 0 <= i < |cs| ==> r[i] == LastFive(cs[i].lastCommunications) && |r[i]| <= PanelSize
  {
    seq(|cs|, i requires 0 <= i < |cs| => LastFiveSpec(cs[i].lastCommunications); LastFive(cs[i].lastCommunications))
  }

  /** The schedules list folded into a map keyed by company id; a later schedule overwrites an earlier one. */
  function IndexByCompany(ss: seq<Schedule>): map<Id, Schedule>
  {
    if ss == [] then map[]
    else
      var last := ss[|ss| - 1];
      IndexByCompany(ss[..|ss| - 1])[last.companyId := last]
  }

  /** The map has a key for exactly the companies that have a schedule, each key maps to a schedule of that
      company, and that schedule is the last one for the company in the list. */
  lemma {:induction false} IndexByCompanyKeepsLast(ss: seq<Schedule>)
    ensures forall k :: k in IndexByCompany(ss) ==> IndexByCompany(ss)[k].companyId == k && IndexByCompany(ss)[k] in ss
    ensures forall i :: 0 <= i < |ss| ==> ss[i].companyId in IndexByCompany(ss)
    ensures forall i :: 0 <= i < |ss| && (forall j :: i < j < |ss| ==> ss[j].companyId != ss[i].companyId) ==>
      IndexByCompany(ss)[ss[i].companyId] == ss[i]
  {
    if ss != [] {
      var init := ss[..|ss| - 1];
      IndexByCompanyKeepsLast(init);
      assert forall i :: 0 <= i < |init| ==> init[i] == ss[i];
      assert ss == init + [ss[|ss| - 1]];
    }
  }

  /** The companies with another id than the given one. */
  function OtherCompanies(cs: seq<Company>, id: Id): seq<Company>
  {
    Filter(cs, (c: Company) => c.id != id)
  }

  /** The (company, panel) pairs whose company has another id than the given one. */
  function OtherPairs(pairs: seq<(Company, seq<Recent>)>, id: Id): seq<(Company, seq<Recent>)>
  {
    Filter(pairs, (p: (Company, seq<Recent>)) => p.0.id != id)
  }

  /** Every company with the given id replaced by `c`, in place. */
  function ReplaceCompany(cs: seq<Company>, id: Id, c: Company): seq<Company>
  {
    ReplaceWhere(cs, (x: Company) => x.id == id, c)
  }

  /** Every method with the id of `m` replaced by `m`, in place. */
  function ReplaceMethod(ms: seq<Method>, m: Method): seq<Method>
  {
    ReplaceWhere(ms, (x: Method) => x.id == m.id, m)
  }

  /** The methods with another id than the given one. */
  function OtherMethods(ms: seq<Method>, id: Id): seq<Method>
  {
    Filter(ms, (m: Method) => m.id != id)
  }

  /** Removes the companies with the given id together with their panels. */
  function DropAligned(cs: seq<Company>, panels: seq<seq<Recent>>, id: Id): (r: (seq<Company>, seq<seq<Recent>>))
    requires |cs| == |panels|
    ensures |r.0| == |r.1|
    ensures forall p :: p in r.1 ==> p in panels
  {
    if cs == [] then ([], [])
    else
      var rest := DropAligned(cs[1..], panels[1..], id);
      if cs[0].id != id then ([cs[0]] + rest.0, [panels[0]] + rest.1) else rest
  }

  /** A zip of two non-empty sequences is the pair of their heads followed by the zip of their tails. */
  lemma ZipCons<A, B>(a: seq<A>, b: seq<B>)
    requires |a| == |b| && |a| > 0
    ensures Zip(a, b) == [(a[0], b[0])] + Zip(a[1..], b[1..])
  {
    assert Zip(a, b)[1..] == Zip(a[1..], b[1..]);
  }

  /** The companies kept are those with another id, and the (company, panel) pairs kept are exactly the pairs
      whose company has another id, in their original order: every company keeps its own panel. */
  lemma {:induction false} DropAlignedKeepsPairs(cs: seq<Company>, panels: seq<seq<Recent>>, id: Id)
    requires |cs| == |panels|
    ensures DropAligned(cs, panels, id).0 == OtherCompanies(cs, id)
    ensures Zip(DropAligned(cs, panels, id).0, DropAligned(cs, panels, id).1) == OtherPairs(Zip(cs, panels), id)
  {
    if cs != [] {
      var rest := DropAligned(cs[1..], panels[1..], id);
      DropAlignedKeepsPairs(cs[1..], panels[1..], id);
      ZipCons(cs, panels);
      if cs[0].id != id {
        var a, b := [cs[0]] + rest.0, [panels[0]] + rest.1;
        assert a[1..] == rest.0 && b[1..] == rest.1;
        ZipCons(a, b);
      }
    }
  }

  /** The company with its log entries of the given id removed. */
  function WithoutComm(c: Company, commId: Id): Company
  {
    c.(lastCommunications := Filter(c.lastCommunications, (m: Comm) => m.id != commId))
  }

  /** The panel with its entries of the given id removed; entries without a server id are kept. */
  function PanelWithout(panel: seq<Recent>, commId: Id): seq<Recent>
  {
    Filter(panel, (r: Recent) => r.id != Some(commId))
  }

  /** A panel with one entry prepended and cut to five, as logCommunication does (no re-sorting). */
  function Prepended(panel: seq<Recent>, entry: Recent): seq<Recent>
  {
    var merged := [entry] + panel;
    if |merged| <= PanelSize then merged else merged[..PanelSize]
  }

  /** deleteCompany as the source writes it: the companies are filtered, the panels are left as they were. */
  function DeleteCompanyAsWritten(cs: seq<Company>, panels: seq<seq<Recent>>, id: Id): (seq<Company>, seq<seq<Recent>>)
  {
    (OtherCompanies(cs, id), panels)
  }

  /** Deleting the first of two or more companies as written misaligns the panels: the list of panels is now
      longer than the list of companies, and the card at position 0, which belongs to the second company,
      is given the deleted company's panel. */
  lemma DeleteCompanyAsWrittenMisaligns(cs: seq<Company>, panels: seq<seq<Recent>>, id: Id)
    requires |cs| == |panels| && |cs| >= 2 && cs[0].id == id && cs[1].id != id
    ensures var r := DeleteCompanyAsWritten(cs, panels, id);
      |r.0| < |r.1| && 0 < |r.0| && r.0[0] == cs[1] && r.1[0] == panels[0]
  {
    var p := (c: Company) => c.id != id;
    assert cs[1..][0] == cs[1] && cs[1..][1..] == cs[2..];
    assert Filter(cs, p) == Filter(cs[1..], p);
    assert Filter(cs[1..], p) == [cs[1]] + Filter(cs[2..], p);
  }

  /** addCompany as the source writes it: the companies are replaced by the refetched list, the panels are
      left as they were. */
  function AddCompanyAsWritten(panels: seq<seq<Recent>>, refetched: seq<Company>): (seq<Company>, seq<seq<Recent>>)
  {
    (refetched, panels)
  }

  /** After adding a company as written, the refetched list has one company more than there are panels, so
      the last card is given no panel at all. */
  lemma AddCompanyAsWrittenLeavesCardWithoutPanel(cs: seq<Company>, panels: seq<seq<Recent>>, refetched: seq<Company>)
    requires |cs| == |panels| && |refetched| == |cs| + 1
    ensures var r := AddCompanyAsWritten(panels, refetched);
      |r.0| - 1 >= |r.1| && |PanelsOf(r.0)| == |r.0|
  {
  }

  class Store {
    var companies: seq<Company>
    var methods: seq<Method>
    var lastFive: seq<seq<Recent>>
    var activeSchedules: map<Id, Schedule>
    var overdue: seq<Company>
    var dueToday: seq<Company>

    /** The panels are index-aligned with the companies and hold at most five entries each;
        every schedule is filed under its own company. */
    ghost predicate Valid()
      reads this
    {
      && |lastFive| == |companies|
      && (forall i :: 0 <= i < |lastFive| ==> |lastFive[i]| <= PanelSize)
      && (forall k :: k in activeSchedules ==> activeSchedules[k].companyId == k)
    }

    /** The notification lists are those of the current companies and schedules for the given day. */
    ghost predicate Fresh(today: Date)
      reads this
    {
      overdue == Select(companies, activeSchedules, today, Overdue)
      && dueToday == Select(companies, activeSchedules, today, DueToday)
    }

    constructor ()
      ensures Valid()
      ensures companies == [] && methods == [] && lastFive == [] && activeSchedules == map[]
      ensures overdue == [] && dueToday == []
    {
      companies, methods, lastFive, activeSchedules := [], [], [], map[];
      overdue, dueToday := [], [];
    }

    /** fetchInitialData: on success, stores the companies and methods, derives every panel and indexes the schedules. */
    method LoadInitialData(response: Option<InitialData>)
      requires Valid()
      modifies this
      ensures Valid()
      ensures response.None? ==> (companies == old(companies) && methods == old(methods)
        && lastFive == old(lastFive) && activeSchedules == old(activeSchedules))
      ensures response.Some? ==> (companies == response.value.companies && methods == response.value.methods
        && lastFive == PanelsOf(companies) && activeSchedules == IndexByCompany(response.value.schedules))
      ensures overdue == old(overdue) && dueToday == old(dueToday)
    {
      if response.Some? {
        var data := response.value;
        IndexByCompanyKeepsLast(data.schedules);
        companies := data.companies;
        methods := data.methods;
        lastFive := PanelsOf(data.companies);
        activeSchedules := IndexByCompany(data.schedules);
      }
    }

    /** The effect that recomputes the notifications whenever the companies or the schedules change. */
    method RecomputeNotifications(today: Date)
      requires Valid()
      modifies this`overdue, this`dueToday
      ensures Valid() && Fresh(today)
    {
      overdue, dueToday := ComputeNotifications(companies, activeSchedules, today);
    }

    /** getNotificationCount: on fresh lists, the number of companies due today or earlier. */
    function GetNotificationCount(ghost today: Date): (n: nat)
      reads this
      ensures Fresh(today) ==> n == CountDue(companies, activeSchedules, today)
    {
      NotificationCountIsDueCount(companies, activeSchedules, today);
      |overdue| + |dueToday|
    }

    /** addCompany: posts the company with its default date, then replaces the list by the refetched one.
        The panels are re-derived for the refetched list (see the README's findings). */
    method AddCompany(newCompany: Company, today: Date, refetched: Option<seq<Company>>) returns (sent: Company)
      requires Valid()
      modifies this`companies, this`lastFive
      ensures Valid()
      ensures sent == WithDefaultNext(newCompany, today)
      ensures refetched.None? ==> companies == old(companies) && lastFive == old(lastFive)
      ensures refetched.Some? ==> companies == refetched.value && lastFive == PanelsOf(companies)
    {
      sent := WithDefaultNext(newCompany, today);
      if refetched.Some? {
        companies := refetched.value;
        lastFive := PanelsOf(companies);
      }
    }

    /** updateCompany: puts the company with its default date and replaces it in place by id. */
    method UpdateCompany(updated: Company, today: Date, ok: bool) returns (sent: Company)
      requires Valid()
      modifies this`companies
      ensures Valid()
      ensures sent == WithDefaultNext(updated, today)
      ensures companies == if ok then ReplaceCompany(old(companies), updated.id, sent) else old(companies)
      ensures Ids(companies) == Ids(old(companies))
    {
      sent := WithDefaultNext(updated, today);
      if ok {
        companies := ReplaceCompany(companies, updated.id, sent);
      }
    }

    /** deleteCompany: removes every company with the id, and its panel with it (see the README's findings). */
    method DeleteCompany(id: Id, ok: bool)
      requires Valid()
      modifies this`companies, this`lastFive
      ensures Valid()
      ensures ok ==> (companies, lastFive) == DropAligned(old(companies), old(lastFive), id)
      ensures !ok ==> companies == old(companies) && lastFive == old(lastFive)
      ensures forall c :: c in companies <==> c in old(companies) && (ok ==> c.id != id)
    {
      if ok {
        DropAlignedKeepsPairs(companies, lastFive, id);
        var r := DropAligned(companies, lastFive, id);
        forall i | 0 <= i < |r.1| ensures |r.1[i]| <= PanelSize {
          assert r.1[i] in lastFive;
        }
        companies, lastFive := r.0, r.1;
      }
    }

    /** scheduleNextCommunication: updates the company's schedule when it has one, creates one otherwise,
        and files the returned schedule under the company. */
    method ScheduleNextCommunication(companyId: Id, communicationType: string, scheduledDate: Date,
                                     response: Option<Schedule>) returns (req: Request)
      requires Valid()
      requires response.Some? ==> response.value.companyId == companyId
      modifies this`activeSchedules
      ensures Valid()
      ensures companyId in old(activeSchedules) ==>
        req == PutSchedule(old(activeSchedules)[companyId].id, communicationType, scheduledDate)
      ensures companyId !in old(activeSchedules) ==> req == PostSchedule(companyId, communicationType, scheduledDate)
      ensures activeSchedules == if response.Some? then old(activeSchedules)[companyId := response.value] else old(activeSchedules)
      ensures forall k :: k != companyId ==> (k in activeSchedules <==> k in old(activeSchedules))
      ensures forall k :: k != companyId && k in activeSchedules ==> activeSchedules[k] == old(activeSchedules)[k]
    {
      if companyId in activeSchedules {
        req := PutSchedule(activeSchedules[companyId].id, communicationType, scheduledDate);
      } else {
        req := PostSchedule(companyId, communicationType, scheduledDate);
      }
      if response.Some? {
        activeSchedules := activeSchedules[companyId := response.value];
      }
    }

    /** cancelNextCommunication: deletes the company's schedule if it has one; otherwise issues nothing. */
    method CancelNextCommunication(companyId: Id, ok: bool) returns (req: Option<Request>)
      requires Valid()
      modifies this`activeSchedules
      ensures Valid()
      ensures companyId !in old(activeSchedules) ==> req.None? && activeSchedules == old(activeSchedules)
      ensures companyId in old(activeSchedules) ==> req == Some(DeleteSchedule(old(activeSchedules)[companyId].id))
      ensures companyId in old(activeSchedules) ==>
        activeSchedules == if ok then old(activeSchedules) - {companyId} else old(activeSchedules)
    {
      req := None;
      if companyId in activeSchedules {
        req := Some(DeleteSchedule(activeSchedules[companyId].id));
        if ok {
          activeSchedules := activeSchedules - {companyId};
        }
      }
    }

    /** logCommunication: replaces the company by the server's updated copy and prepends the entry to its panel. */
    method LogCommunication(companyId: Id, data: CommunicationData, response: Option<Company>)
      requires Valid()
      modifies this`companies, this`lastFive
      ensures Valid()
      ensures response.None? ==> companies == old(companies) && lastFive == old(lastFive)
      ensures response.Some? ==> companies == ReplaceCompany(old(companies), companyId, response.value)
      ensures response.Some? && FindIndex(old(companies), companyId).Some? ==>
        var i := FindIndex(old(companies), companyId).value;
        lastFive == old(lastFive)[i := Prepended(old(lastFive)[i],
          Recent(None, data.communicationDate, data.communicationType, data.notes))]
      ensures FindIndex(old(companies), companyId).None? ==> lastFive == old(lastFive)
    {
      if response.Some? {
        var index := FindIndex(companies, companyId);
        companies := ReplaceCompany(companies, companyId, response.value);
        if index.Some? {
          var entry := Recent(None, data.communicationDate, data.communicationType, data.notes);
          lastFive := lastFive[index.value := Prepended(lastFive[index.value], entry)];
        }
      }
    }

    /** updateLastFiveCommunicationDate: merges the entry into the company's panel, newest first, keeping five. */
    method UpdateLastFiveCommunicationDate(companyId: Id, entry: Recent)
      requires Valid()
      modifies this`lastFive
      ensures Valid()
      ensures FindIndex(companies, companyId).None? ==> lastFive == old(lastFive)
      ensures FindIndex(companies, companyId).Some? ==>
        var i := FindIndex(companies, companyId).value;
        lastFive == old(lastFive)[i := TopFive([entry] + old(lastFive)[i])]
    {
      var index := FindIndex(companies, companyId);
      if index.Some? {
        var i := index.value;
        lastFive := lastFive[i := TopFive([entry] + lastFive[i])];
      }
    }

    /** removeCommunication: drops the entry from the company's log and from its panel; nothing else changes. */
    method RemoveCommunication(companyId: Id, communicationId: Id, ok: bool) returns (req: Request)
      requires Valid()
      requires FindIndex(companies, companyId).Some?
      modifies this`companies, this`lastFive
      ensures Valid()
      ensures req == DeleteCommunication(communicationId)
      ensures !ok ==> companies == old(companies) && lastFive == old(lastFive)
      ensures ok ==> |companies| == |old(companies)|
      ensures ok ==> forall i :: 0 <= i < |companies| ==>
        companies[i] == if old(companies)[i].id == companyId then WithoutComm(old(companies)[i], communicationId) else old(companies)[i]
      ensures ok ==>
        var k := FindIndex(old(companies), companyId).value;
        lastFive == old(lastFive)[k := PanelWithout(old(lastFive)[k], communicationId)]
      ensures activeSchedules == old(activeSchedules)
    {
      req := DeleteCommunication(communicationId);
      if ok {
        var index := FindIndex(companies, companyId).value;
        companies := seq(|companies|, i requires 0 <= i < |companies| reads this =>
          if companies[i].id == companyId then WithoutComm(companies[i], communicationId) else companies[i]);
        lastFive := lastFive[index := PanelWithout(lastFive[index], communicationId)];
      }
    }

    /** addMethod: posts the method, then replaces the list by the refetched one. */
    method AddMethod(refetched: Option<seq<Method>>)
      modifies this`methods
      ensures methods == if refetched.Some? then refetched.value else old(methods)
    {
      if refetched.Some? {
        methods := refetched.value;
      }
    }

    /** updateMethod: replaces the method in place by id. */
    method UpdateMethod(updated: Method, ok: bool)
      modifies this`methods
      ensures methods == if ok then ReplaceMethod(old(methods), updated) else old(methods)
    {
      if ok {
        methods := ReplaceMethod(methods, updated);
      }
    }

    /** deleteMethod: removes every method with the id. */
    method DeleteMethod(id: Id, ok: bool)
      modifies this`methods
      ensures methods == if ok then OtherMethods(old(methods), id) else old(methods)
    {
      if ok {
        methods := OtherMethods(methods, id);
      }
    }
  }

  /** Removing a communication touches only the named company's log, and only the entries with that id. */
  lemma WithoutCommSpec(c: Company, commId: Id)
    ensures WithoutComm(c, commId).(lastCommunications := c.lastCommunications) == c
    ensures forall m :: m in WithoutComm(c, commId).lastCommunications <==> m in c.lastCommunications && m.id != commId
  {
  }

  /** Replacing a company by an updated copy with the same id keeps the ids, and hence their distinctness. */
  lemma {:induction false} ReplaceKeepsIds(cs: seq<Company>, updated: Company)
    ensures Ids(ReplaceCompany(cs, updated.id, updated)) == Ids(cs)
  {
    var r := ReplaceCompany(cs, updated.id, updated);
    assert forall i :: 0 <= i < |cs| ==> r[i].id == cs[i].id;
  }
}
