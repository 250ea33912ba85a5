/** The REST handlers of the server, over an in-memory document store: one map per collection, keyed by
    document id, and a counter that hands out fresh ids the way the store hands out ObjectIds. */
module Backend {
  import opened Domain
  import opened Seqs

  /** The HTTP outcomes of the handlers: 200, 201, 400 and 404. */
  datatype Status = Ok | Created | BadRequest | NotFound

  /** A stored company: `lastCommunications` holds references to communication documents. */
  datatype CompanyDoc = CompanyDoc(
    name: string,
    location: string,
    linkedInProfile: string,
    emails: seq<string>,
    phoneNumbers: seq<string>,
    comments: string,
    communicationPeriodicity: string,
    lastCommunications: seq<Id>,
    nextCommunication: Option<Date>)

  /** A company request body. Strings use "" for a missing value. */
  datatype CompanyInput = CompanyInput(
    name: string,
    location: string,
    linkedInProfile: string,
    emails: seq<string>,
    phoneNumbers: seq<string>,
    comments: string,
    communicationPeriodicity: string,
    nextCommunication: Option<Date>)

  /** A company update body: None for a field the body does not mention, which keeps its stored value.
      `nextCommunication` is Some(None) when the body sets it to null. A body that carries
      `lastCommunications` replaces the stored references with the ids it lists. */
  datatype CompanyPatch = CompanyPatch(
    name: Option<string>,
    location: Option<string>,
    linkedInProfile: Option<string>,
    emails: Option<seq<string>>,
    phoneNumbers: Option<seq<string>>,
    comments: Option<string>,
    communicationPeriodicity: Option<string>,
    lastCommunications: Option<seq<Id>>,
    nextCommunication: Option<Option<Date>>)

  datatype CommDoc = CommDoc(
    companyId: Id,
    communicationType: string,
    communicationDate: Date,
    notes: string,
    nextCommunication: Option<Date>)

  /** A log-communication request body. */
  datatype CommInput = CommInput(
    companyId: Id,
    communicationType: string,
    communicationDate: Option<Date>,
    notes: string,
    nextCommunication: Option<Date>)

  datatype ScheduleDoc = ScheduleDoc(
    companyId: Id,
    communicationType: string,
    scheduledDate: Date,
    isCompleted: bool)

  /** A create-schedule request body; absent fields are None or "". */
  datatype ScheduleInput = ScheduleInput(
    companyId: Option<Id>,
    communicationType: string,
    scheduledDate: Option<Date>,
    isCompleted: Option<bool>)

  datatype MethodDoc = MethodDoc(name: string, description: string, sequence: int, mandatory: bool)

  /** A method request body; `sequence` is None when absent or not a number. */
  datatype MethodInput = MethodInput(name: string, description: string, sequence: Option<int>, mandatory: Option<bool>)

  /** A method update body: None for a field the body does not mention. */
  datatype MethodPatch = MethodPatch(name: Option<string>, description: Option<string>, sequence: Option<int>, mandatory: Option<bool>)

  datatype MethodEntry = MethodEntry(id: Id, doc: MethodDoc)

  /** The schema's required fields: a company needs a name and a location. */
  predicate CompanyValid(input: CompanyInput)
  {
    input.name != "" && input.location != ""
  }

  /** Update validators check only the fields the body sets: a required field may not be set to "". */
  predicate CompanyPatchValid(p: CompanyPatch)
  {
    p.name != Some("") && p.location != Some("")
  }

  /** A communication needs a type and a date (its company is checked first, by lookup). */
  predicate CommValid(input: CommInput)
  {
    input.communicationType != "" && input.communicationDate.Some?
  }

  /** A schedule needs a company, a type and a date. */
  predicate ScheduleValid(input: ScheduleInput)
  {
    input.companyId.Some? && input.communicationType != "" && input.scheduledDate.Some?
  }

  /** A method needs a name and a numeric sequence. */
  predicate MethodValid(input: MethodInput)
  {
    input.name != "" && input.sequence.Some?
  }

  predicate MethodPatchValid(p: MethodPatch)
  {
    p.name != Some("")
  }

  /** The supplied value, or the stored one when the body does not mention the field. */
  function Or<T>(o: Option<T>, stored: T): T
  {
    if o.Some? then o.value else stored
  }

  function NewCompany(input: CompanyInput): CompanyDoc
  {
    CompanyDoc(input.name, input.location, input.linkedInProfile, input.emails, input.phoneNumbers,
               input.comments, input.communicationPeriodicity, [], input.nextCommunication)
  }

  /** The fields the body mentions overwrite the stored ones, the log references included. */
  function PatchedCompany(doc: CompanyDoc, p: CompanyPatch): CompanyDoc
  {
    CompanyDoc(Or(p.name, doc.name), Or(p.location, doc.location), Or(p.linkedInProfile, doc.linkedInProfile),
               Or(p.emails, doc.emails), Or(p.phoneNumbers, doc.phoneNumbers), Or(p.comments, doc.comments),
               Or(p.communicationPeriodicity, doc.communicationPeriodicity), Or(p.lastCommunications, doc.lastCommunications),
               Or(p.nextCommunication, doc.nextCommunication))
  }

  /** A new schedule; `isCompleted` defaults to false. */
  function NewSchedule(input: ScheduleInput): ScheduleDoc
    requires ScheduleValid(input)
  {
    ScheduleDoc(input.companyId.value, input.communicationType, input.scheduledDate.value,
                if input.isCompleted.Some? then input.isCompleted.value else false)
  }

  /** A new method; `mandatory` defaults to false. */
  function NewMethod(input: MethodInput): MethodDoc
    requires MethodValid(input)
  {
    MethodDoc(input.name, input.description, input.sequence.value,
              if input.mandatory.Some? then input.mandatory.value else false)
  }

  function PatchedMethod(doc: MethodDoc, p: MethodPatch): MethodDoc
  {
    MethodDoc(Or(p.name, doc.name), Or(p.description, doc.description), Or(p.sequence, doc.sequence),
              Or(p.mandatory, doc.mandatory))
  }

  /** Expands references into communications; references to deleted communications are dropped. */
  function Populate(ids: seq<Id>, comms: map<Id, CommDoc>): seq<Comm>
  {
    if ids == [] then []
    else
      var rest := Populate(ids[1..], comms);
      if ids[0] in comms then
        var d := comms[ids[0]];
        [Comm(ids[0], d.companyId, d.communicationType, d.communicationDate, d.notes)] + rest
      else rest
  }

  /** The company as the server returns it, with its log populated. */
  function View(id: Id, doc: CompanyDoc, comms: map<Id, CommDoc>): Company
  {
    Company(id, doc.name, doc.location, doc.linkedInProfile, doc.emails, doc.phoneNumbers, doc.comments,
            doc.communicationPeriodicity, Populate(doc.lastCommunications, comms), doc.nextCommunication)
  }

  /** The ids of communications, in order. */
  function CommIds(cs: seq<Comm>): seq<Id>
  {
    if cs == [] then [] else [cs[0].id] + CommIds(cs[1..])
  }

  function Present(ids: seq<Id>, comms: map<Id, CommDoc>): seq<Id>
  {
    Filter(ids, (id: Id) => id in comms)
  }

  /** Population keeps exactly the references that still resolve, in order, each with its stored fields. */
  lemma {:induction false} PopulateKeepsResolved(ids: seq<Id>, comms: map<Id, CommDoc>)
    ensures CommIds(Populate(ids, comms)) == Present(ids, comms)
    ensures forall c :: c in Populate(ids, comms) ==>
      c.id in comms && c == Comm(c.id, comms[c.id].companyId, comms[c.id].communicationType,
                                 comms[c.id].communicationDate, comms[c.id].notes)
  {
    if ids != [] {
      PopulateKeepsResolved(ids[1..], comms);
    }
  }

  /** Populating only the references that resolve shows the same log as populating them all. */
  lemma {:induction false} PopulatePresent(ids: seq<Id>, comms: map<Id, CommDoc>)
    ensures Populate(Present(ids, comms), comms) == Populate(ids, comms)
  {
    if ids != [] {
      PopulatePresent(ids[1..], comms);
      PresentCons(ids, comms);
      if ids[0] in comms {
        var q := Present(ids, comms);
        var d := comms[ids[0]];
        var head := [Comm(ids[0], d.companyId, d.communicationType, d.communicationDate, d.notes)];
        assert q[0] == ids[0] && q[1..] == Present(ids[1..], comms);
        assert Populate(q, comms) == head + Populate(q[1..], comms);
      } else {
        assert Present(ids, comms) == Present(ids[1..], comms);
      }
    }
  }

  /** Filtering a non-empty list of references: its head if it resolves, then the filtered tail. */
  lemma PresentCons(ids: seq<Id>, comms: map<Id, CommDoc>)
    requires ids != []
    ensures Present(ids, comms) == (if ids[0] in comms then [ids[0]] else []) + Present(ids[1..], comms)
  {
  }

  /** An edit that sends back the company's populated log, as the admin form does, replaces the stored
      references by those that still resolve: dangling references are dropped, and the populated log is
      the same as before. */
  lemma ResentLogDropsDangling(id: Id, doc: CompanyDoc, p: CompanyPatch, comms: map<Id, CommDoc>)
    requires p.lastCommunications == Some(CommIds(View(id, doc, comms).lastCommunications))
    ensures PatchedCompany(doc, p).lastCommunications == Present(doc.lastCommunications, comms)
    ensures forall r :: r in PatchedCompany(doc, p).lastCommunications ==> r in comms
    ensures View(id, PatchedCompany(doc, p), comms).lastCommunications == View(id, doc, comms).lastCommunications
  {
    PopulateKeepsResolved(doc.lastCommunications, comms);
    PopulatePresent(doc.lastCommunications, comms);
  }

  /** Once a communication is deleted, no populated view shows it, even though the reference remains. */
  lemma PopulateAfterDelete(ids: seq<Id>, comms: map<Id, CommDoc>, id: Id)
    ensures forall c :: c in Populate(ids, comms - {id}) ==> c.id != id
    ensures |Populate(ids, comms - {id})| <= |Populate(ids, comms)|
  {
    PopulateKeepsResolved(ids, comms - {id});
    PopulateKeepsResolved(ids, comms);
    CommIdsLength(Populate(ids, comms - {id}));
    CommIdsLength(Populate(ids, comms));
    PresentShrinks(ids, comms, id);
  }

  lemma CommIdsLength(cs: seq<Comm>)
    ensures |CommIds(cs)| == |cs|
  {
  }

  lemma {:induction false} PresentShrinks(ids: seq<Id>, comms: map<Id, CommDoc>, id: Id)
    ensures |Present(ids, comms - {id})| <= |Present(ids, comms)|
  {
    if ids != [] {
      PresentShrinks(ids[1..], comms, id);
    }
  }

  /** The methods are ordered by sequence. */
  ghost predicate SortedBySequence(s: seq<MethodEntry>)
  {
    forall i, j :: 0 <= i < j < |s| ==> s[i].doc.sequence <= s[j].doc.sequence
  }

  /** Places `x` after every entry whose sequence is not larger. */
  function InsertBySequence(x: MethodEntry, s: seq<MethodEntry>): (r: seq<MethodEntry>)
    requires SortedBySequence(s)
    ensures SortedBySequence(r)
    ensures |r| == |s| + 1
    ensures forall y :: y in r <==> y in s || y == x
    ensures multiset(r) == multiset(s) + multiset{x}
  {
    if s == [] || x.doc.sequence < s[0].doc.sequence then [x] + s
    else
      var rest := InsertBySequence(x, s[1..]);
      assert s == [s[0]] + s[1..];
      assert forall j :: 0 <= j < |rest| ==> rest[j] in s[1..] || rest[j] == x;
      assert forall j :: 0 <= j < |rest| ==> s[0].doc.sequence <= rest[j].doc.sequence;
      [s[0]] + rest
  }

  class Server {
    var companies: map<Id, CompanyDoc>
    var communications: map<Id, CommDoc>
    var schedules: map<Id, ScheduleDoc>
    var methods: map<Id, MethodDoc>
    var nextId: nat

    /** Every stored id was handed out before: the next id is fresh in every collection. */
    ghost predicate Valid()
      reads this
    {
      && (forall k :: k in companies ==> k < nextId)
      && (forall k :: k in communications ==> k < nextId)
      && (forall k :: k in schedules ==> k < nextId)
      && (forall k :: k in methods ==> k < nextId)
    }

    /** The ids of the schedules of a company that are not completed. */
    ghost function ActiveIdsOf(companyId: Id): set<Id>
      reads this
    {
      set k | k in schedules && schedules[k].companyId == companyId && !schedules[k].isCompleted
    }

    constructor ()
      ensures Valid()
      ensures companies == map[] && communications == map[] && schedules == map[] && methods == map[]
    {
      companies, communications, schedules, methods := map[], map[], map[], map[];
      nextId := 0;
    }

    // ---- Companies ----

    /** POST /companies: 400 without a name or location (nothing is stored), else 201 with a new company. */
    method CreateCompany(input: CompanyInput) returns (status: Status, id: Option<Id>)
      requires Valid()
      modifies this
      ensures Valid()
      ensures !CompanyValid(input) ==> status == BadRequest && id.None? && companies == old(companies)
      ensures CompanyValid(input) ==> (status == Created && id == Some(old(nextId))
        && old(nextId) !in old(companies) && companies == old(companies)[old(nextId) := NewCompany(input)])
      ensures communications == old(communications) && schedules == old(schedules) && methods == old(methods)
    {
      if !CompanyValid(input) {
        return BadRequest, None;
      }
      companies := companies[nextId := NewCompany(input)];
      id := Some(nextId);
      nextId := nextId + 1;
      status := Created;
    }

    /** GET /companies/{id}: 404 or the company with its log populated. */
    method GetCompany(id: Id) returns (status: Status, company: Option<Company>)
      ensures id !in companies ==> status == NotFound && company.None?
      ensures id in companies ==> status == Ok && company == Some(View(id, companies[id], communications))
    {
      if id !in companies {
        return NotFound, None;
      }
      return Ok, Some(View(id, companies[id], communications));
    }

    /** GET /companies: every stored company once, each with its log populated. */
    method ListCompanies() returns (r: seq<Company>)
      ensures |r| == |companies|
      ensures forall c :: c in r <==> c.id in companies && c == View(c.id, companies[c.id], communications)
    {
      r := [];
      var remaining := companies.Keys;
      while remaining != {}
        invariant remaining <= companies.Keys
        invariant |r| == |companies.Keys - remaining|
        invariant forall c :: c in r <==> c.id in companies.Keys - remaining && c == View(c.id, companies[c.id], communications)
        decreases |remaining|
      {
        var k :| k in remaining;
        assert companies.Keys - (remaining - {k}) == (companies.Keys - remaining) + {k};
        r := r + [View(k, companies[k], communications)];
        remaining := remaining - {k};
      }
      assert companies.Keys - remaining == companies.Keys;
    }

    /** PUT /companies/{id}: the update validators run first (400), then the lookup (404); the fields the
        body mentions overwrite the stored ones and the rest are kept. */
    method UpdateCompany(id: Id, patch: CompanyPatch) returns (status: Status)
      requires Valid()
      modifies this
      ensures Valid()
      ensures !CompanyPatchValid(patch) ==> status == BadRequest && companies == old(companies)
      ensures CompanyPatchValid(patch) && id !in old(companies) ==> status == NotFound && companies == old(companies)
      ensures CompanyPatchValid(patch) && id in old(companies) ==>
        status == Ok && companies == old(companies)[id := PatchedCompany(old(companies)[id], patch)]
      ensures communications == old(communications) && schedules == old(schedules) && methods == old(methods)
      ensures nextId == old(nextId)
    {
      if !CompanyPatchValid(patch) {
        return BadRequest;
      }
      if id !in companies {
        return NotFound;
      }
      companies := companies[id := PatchedCompany(companies[id], patch)];
      status := Ok;
    }

    /** DELETE /companies/{id}: 404, or the company alone is removed (its log and schedules stay). */
    method DeleteCompany(id: Id) returns (status: Status)
      requires Valid()
      modifies this
      ensures Valid()
      ensures id !in old(companies) ==> status == NotFound && companies == old(companies)
      ensures id in old(companies) ==> status == Ok && companies == old(companies) - {id}
      ensures communications == old(communications) && schedules == old(schedules) && methods == old(methods)
      ensures nextId == old(nextId)
    {
      if id !in companies {
        return NotFound;
      }
      companies := companies - {id};
      status := Ok;
    }

    // ---- Communications ----

    /** POST /communications: 404 for an unknown company; 400 when the communication lacks a type or date;
        otherwise the communication is stored, its id appended to the company's log and the company's
        nextCommunication overwritten by the supplied date, or cleared when none is supplied. */
    method LogCommunication(input: CommInput) returns (status: Status, updated: Option<Company>)
      requires Valid()
      modifies this
      ensures Valid()
      ensures input.companyId !in old(companies) ==>
        status == NotFound && updated.None? && companies == old(companies) && communications == old(communications)
      ensures input.companyId in old(companies) && !CommValid(input) ==>
        status == BadRequest && updated.None? && companies == old(companies) && communications == old(communications)
      ensures input.companyId in old(companies) && CommValid(input) ==>
        var id := old(nextId);
        var doc := old(companies)[input.companyId];
        && status == Ok
        && id !in old(communications)
        && communications == old(communications)[id := CommDoc(input.companyId, input.communicationType,
             input.communicationDate.value, input.notes, input.nextCommunication)]
        && companies == old(companies)[input.companyId :=
             doc.(lastCommunications := doc.lastCommunications + [id], nextCommunication := input.nextCommunication)]
        && updated == Some(View(input.companyId, companies[input.companyId], communications))
      ensures schedules == old(schedules) && methods == old(methods)
    {
      if input.companyId !in companies {
        return NotFound, None;
      }
      if !CommValid(input) {
        return BadRequest, None;
      }
      var id := nextId;
      nextId := nextId + 1;
      communications := communications[id := CommDoc(input.companyId, input.communicationType,
                                                     input.communicationDate.value, input.notes, input.nextCommunication)];
      var company := companies[input.companyId];
      company := company.(lastCommunications := company.lastCommunications + [id]);
      company := company.(nextCommunication := input.nextCommunication);
      companies := companies[input.companyId := company];
      status := Ok;
      updated := Some(View(input.companyId, companies[input.companyId], communications));
    }

    /** GET /communications/{id}: 404 or the stored communication. */
    method GetCommunication(id: Id) returns (status: Status, comm: Option<CommDoc>)
      ensures id !in communications ==> status == NotFound && comm.None?
      ensures id in communications ==> status == Ok && comm == Some(communications[id])
    {
      if id !in communications {
        return NotFound, None;
      }
      return Ok, Some(communications[id]);
    }

    /** DELETE /communications/{id}: 404, or the communication is removed; the companies are not touched,
        so the company's reference to it dangles. */
    method DeleteCommunication(id: Id) returns (status: Status)
      requires Valid()
      modifies this
      ensures Valid()
      ensures id !in old(communications) ==> status == NotFound && communications == old(communications)
      ensures id in old(communications) ==> status == Ok && communications == old(communications) - {id}
      ensures companies == old(companies) && schedules == old(schedules) && methods == old(methods)
      ensures nextId == old(nextId)
    {
      if id !in communications {
        return NotFound;
      }
      communications := communications - {id};
      status := Ok;
    }

    // ---- Next communications (schedules) ----

    /** POST /next-communications: 400 without company, type or date; otherwise a new schedule, whether
        or not the company exists and whether or not it already has an active schedule. */
    method CreateSchedule(input: ScheduleInput) returns (status: Status, id: Option<Id>)
      requires Valid()
      modifies this
      ensures Valid()
      ensures !ScheduleValid(input) ==> status == BadRequest && id.None? && schedules == old(schedules)
      ensures ScheduleValid(input) ==> (status == Created && id == Some(old(nextId))
        && old(nextId) !in old(schedules) && schedules == old(schedules)[old(nextId) := NewSchedule(input)])
      ensures ScheduleValid(input) && !NewSchedule(input).isCompleted ==>
        ActiveIdsOf(input.companyId.value) == old(ActiveIdsOf(input.companyId.value)) + {old(nextId)}
      ensures companies == old(companies) && communications == old(communications) && methods == old(methods)
    {
      if !ScheduleValid(input) {
        return BadRequest, None;
      }
      schedules := schedules[nextId := NewSchedule(input)];
      id := Some(nextId);
      nextId := nextId + 1;
      status := Created;
    }

    /** PUT /next-communications/{id}: 404, or the type and date are replaced and the schedule is
        made active again. */
    method UpdateSchedule(id: Id, communicationType: string, scheduledDate: Date) returns (status: Status)
      requires Valid()
      modifies this
      ensures Valid()
      ensures id !in old(schedules) ==> status == NotFound && schedules == old(schedules)
      ensures id in old(schedules) ==> status == Ok && schedules == old(schedules)[id :=
        old(schedules)[id].(communicationType := communicationType, scheduledDate := scheduledDate, isCompleted := false)]
      ensures companies == old(companies) && communications == old(communications) && methods == old(methods)
      ensures nextId == old(nextId)
    {
      if id !in schedules {
        return NotFound;
      }
      schedules := schedules[id := schedules[id].(communicationType := communicationType,
                                                  scheduledDate := scheduledDate, isCompleted := false)];
      status := Ok;
    }

    /** DELETE /next-communications/{id}: 404, or exactly that schedule is removed. */
    method CancelSchedule(id: Id) returns (status: Status)
      requires Valid()
      modifies this
      ensures Valid()
      ensures id !in old(schedules) ==> status == NotFound && schedules == old(schedules)
      ensures id in old(schedules) ==> status == Ok && schedules == old(schedules) - {id}
      ensures companies == old(companies) && communications == old(communications) && methods == old(methods)
      ensures nextId == old(nextId)
    {
      if id !in schedules {
        return NotFound;
      }
      schedules := schedules - {id};
      status := Ok;
    }

    /** GET /next-communications: exactly the schedules that are not completed. */
    method ListActiveSchedules() returns (active: map<Id, ScheduleDoc>)
      ensures forall k :: k in active <==> k in schedules && !schedules[k].isCompleted
      ensures forall k :: k in active ==> active[k] == schedules[k]
    {
      active := map k | k in schedules && !schedules[k].isCompleted :: schedules[k];
    }

    /** GET /next-communications/{companyId}: the company's schedules that are not completed. */
    method ListSchedulesOf(companyId: Id) returns (active: map<Id, ScheduleDoc>)
      ensures active.Keys == ActiveIdsOf(companyId)
      ensures forall k :: k in active ==> active[k] == schedules[k]
    {
      active := map k | k in schedules && schedules[k].companyId == companyId && !schedules[k].isCompleted :: schedules[k];
    }

    // ---- Communication methods ----

    /** GET /communication-methods: every method once, ordered by sequence. */
    method ListMethods() returns (r: seq<MethodEntry>)
      ensures SortedBySequence(r)
      ensures |r| == |methods|
      ensures forall e :: e in r <==> e.id in methods && e.doc == methods[e.id]
    {
      r := [];
      var remaining := methods.Keys;
      while remaining != {}
        invariant remaining <= methods.Keys
        invariant SortedBySequence(r)
        invariant |r| == |methods.Keys - remaining|
        invariant forall e :: e in r <==> e.id in methods.Keys - remaining && e.doc == methods[e.id]
        decreases |remaining|
      {
        var k :| k in remaining;
        assert methods.Keys - (remaining - {k}) == (methods.Keys - remaining) + {k};
        r := InsertBySequence(MethodEntry(k, methods[k]), r);
        remaining := remaining - {k};
      }
      assert methods.Keys - remaining == methods.Keys;
    }

    /** POST /communication-methods: 400 without a name or a numeric sequence, else 201. */
    method CreateMethod(input: MethodInput) returns (status: Status, id: Option<Id>)
      requires Valid()
      modifies this
      ensures Valid()
      ensures !MethodValid(input) ==> status == BadRequest && id.None? && methods == old(methods)
      ensures MethodValid(input) ==> (status == Created && id == Some(old(nextId))
        && old(nextId) !in old(methods) && methods == old(methods)[old(nextId) := NewMethod(input)])
      ensures companies == old(companies) && communications == old(communications) && schedules == old(schedules)
    {
      if !MethodValid(input) {
        return BadRequest, None;
      }
      methods := methods[nextId := NewMethod(input)];
      id := Some(nextId);
      nextId := nextId + 1;
      status := Created;
    }

    /** PUT /communication-methods/{id}: validators first (400), then the lookup (404); the fields the body
        mentions overwrite the stored ones. */
    method UpdateMethod(id: Id, patch: MethodPatch) returns (status: Status)
      requires Valid()
      modifies this
      ensures Valid()
      ensures !MethodPatchValid(patch) ==> status == BadRequest && methods == old(methods)
      ensures MethodPatchValid(patch) && id !in old(methods) ==> status == NotFound && methods == old(methods)
      ensures MethodPatchValid(patch) && id in old(methods) ==>
        status == Ok && methods == old(methods)[id := PatchedMethod(old(methods)[id], patch)]
      ensures companies == old(companies) && communications == old(communications) && schedules == old(schedules)
      ensures nextId == old(nextId)
    {
      if !MethodPatchValid(patch) {
        return BadRequest;
      }
      if id !in methods {
        return NotFound;
      }
      methods := methods[id := PatchedMethod(methods[id], patch)];
      status := Ok;
    }

    /** DELETE /communication-methods/{id}: 404, or exactly that method is removed. */
    method DeleteMethod(id: Id) returns (status: Status)
      requires Valid()
      modifies this
      ensures Valid()
      ensures id !in old(methods) ==> status == NotFound && methods == old(methods)
      ensures id in old(methods) ==> status == Ok && methods == old(methods) - {id}
      ensures companies == old(companies) && communications == old(communications) && schedules == old(schedules)
      ensures nextId == old(nextId)
    {
      if id !in methods {
        return NotFound;
      }
      methods := methods - {id};
      status := Ok;
    }
  }
}
