/** The calendar view: one event per logged communication plus one per active schedule, coloured by
    how the scheduled day compares with today. */
module Calendar {
  import opened Domain
  import opened Notifications

  datatype Kind = Past | Upcoming

  /** A calendar entry. A past event carries its communication's notes and no channel; an upcoming
      event carries the schedule's communication type as its channel and no notes. */
  datatype Event = Event(
    kind: Kind,
    title: string,
    date: Date,
    company: string,
    companyId: Id,
    notes: Option<string>,
    channel: Option<string>)

  datatype Color = Grey | Red | Yellow | Blue

  /** A call of scheduleNextCommunication issued by the view. */
  datatype ScheduleCall = ScheduleCall(companyId: Id, communicationType: string, scheduledDate: Date)

  /** The reschedule form. */
  datatype Form = Form(nextCommunicationType: string, nextCommunicationDate: Date)

  /** The view's own state: whether the reschedule modal is open, the event it is about, and its form. */
  datatype ViewState = ViewState(showRescheduleModal: bool, selectedEvent: Option<Event>, form: Form)

  function Title(company: string, what: string): string
  {
    company + " - " + what
  }

  function PastEvent(c: Company, comm: Comm): Event
  {
    Event(Past, Title(c.name, comm.communicationType), comm.communicationDate, c.name, c.id, Some(comm.notes), None)
  }

  /** The events of a company's log, in log order. */
  function PastEvents(c: Company, comms: seq<Comm>): seq<Event>
  {
    if comms == [] then [] else [PastEvent(c, comms[0])] + PastEvents(c, comms[1..])
  }

  /** The upcoming event of a company: one when it has an active schedule, none otherwise. */
  function UpcomingEvents(c: Company, active: map<Id, Schedule>): seq<Event>
  {
    if c.id in active then
      var s := active[c.id];
      [Event(Upcoming, Title(c.name, s.communicationType), s.scheduledDate, c.name, c.id, None, Some(s.communicationType))]
    else []
  }

  function CompanyEvents(c: Company, active: map<Id, Schedule>): seq<Event>
  {
    PastEvents(c, c.lastCommunications) + UpcomingEvents(c, active)
  }

  /** The `events` list: every company's events, company after company. */
  function Events(cs: seq<Company>, active: map<Id, Schedule>): seq<Event>
  {
    if cs == [] then [] else CompanyEvents(cs[0], active) + Events(cs[1..], active)
  }

  /** The number of logged communications across the companies. */
  function TotalLogged(cs: seq<Company>): nat
  {
    if cs == [] then 0 else |cs[0].lastCommunications| + TotalLogged(cs[1..])
  }

  /** The number of companies with an active schedule. */
  function Scheduled(cs: seq<Company>, active: map<Id, Schedule>): nat
  {
    if cs == [] then 0 else (if cs[0].id in active then 1 else 0) + Scheduled(cs[1..], active)
  }

  /** eventStyleGetter's colour: past events are grey; an upcoming event is red before today, yellow on
      today and blue after. */
  function EventColor(e: Event, today: Date): Color
  {
    if e.kind == Upcoming then
      if e.date < today then Red else if e.date == today then Yellow else Blue
    else Grey
  }

  /** draggableAccessor: only upcoming events can be dragged. */
  predicate Draggable(e: Event)
  {
    e.kind == Upcoming
  }

  /** moveEvent: dropping an upcoming event on a day reschedules it with the same method; a past event
      issues nothing. */
  function MoveEvent(e: Event, newDate: Date): Option<ScheduleCall>
  {
    if e.kind == Upcoming && e.channel.Some? then Some(ScheduleCall(e.companyId, e.channel.value, newDate)) else None
  }

  /** handleEventClick: an upcoming event opens the reschedule modal prefilled with its method and day;
      any other click changes nothing. */
  function HandleEventClick(st: ViewState, e: Event): (r: ViewState)
    ensures e.kind != Upcoming ==> r == st
    ensures e.kind == Upcoming ==> r.showRescheduleModal && r.selectedEvent == Some(e)
    ensures e.kind == Upcoming && e.channel.Some? ==> r.form == Form(e.channel.value, e.date)
  {
    if e.kind == Upcoming then
      ViewState(true, Some(e), Form(if e.channel.Some? then e.channel.value else "", e.date))
    else st
  }

  /** handleRescheduleSubmit: schedules the selected event's company with the form's values, then closes
      the modal and forgets the event. The handler reads the selected event, which a click has set. */
  function HandleRescheduleSubmit(st: ViewState): (r: (ScheduleCall, ViewState))
    requires st.selectedEvent.Some?
    ensures r.0.companyId == st.selectedEvent.value.companyId
    ensures r.0.communicationType == st.form.nextCommunicationType && r.0.scheduledDate == st.form.nextCommunicationDate
    ensures !r.1.showRescheduleModal && r.1.selectedEvent.None? && r.1.form == st.form
  {
    (ScheduleCall(st.selectedEvent.value.companyId, st.form.nextCommunicationType, st.form.nextCommunicationDate),
     ViewState(false, None, st.form))
  }

  /** Past events keep the log's order and fields. */
  lemma {:induction false} PastEventsFollowLog(c: Company, comms: seq<Comm>)
    ensures |PastEvents(c, comms)| == |comms|
    ensures forall i :: 0 <= i < |comms| ==> PastEvents(c, comms)[i] == PastEvent(c, comms[i])
  {
    if comms != [] {
      PastEventsFollowLog(c, comms[1..]);
    }
  }

  /** Per company: the log's events first, in log order, then at most one upcoming event, which carries the
      schedule's type and date. */
  lemma CompanyEventsShape(c: Company, active: map<Id, Schedule>)
    ensures var es := CompanyEvents(c, active);
      && |es| == |c.lastCommunications| + (if c.id in active then 1 else 0)
      && (forall i :: 0 <= i < |c.lastCommunications| ==>
            es[i].kind == Past && es[i].date == c.lastCommunications[i].communicationDate
            && es[i].notes == Some(c.lastCommunications[i].notes))
      && (c.id in active ==> (es[|es| - 1].kind == Upcoming && es[|es| - 1].date == active[c.id].scheduledDate
            && es[|es| - 1].channel == Some(active[c.id].communicationType)))
  {
    PastEventsFollowLog(c, c.lastCommunications);
  }

  /** The number of events is the number of logged communications plus the number of scheduled companies. */
  lemma {:induction false} EventCount(cs: seq<Company>, active: map<Id, Schedule>)
    ensures |Events(cs, active)| == TotalLogged(cs) + Scheduled(cs, active)
  {
    if cs != [] {
      EventCount(cs[1..], active);
      PastEventsFollowLog(cs[0], cs[0].lastCommunications);
    }
  }

  /** Every company's events occur in the calendar. */
  lemma {:induction false} CompanyEventsIncluded(cs: seq<Company>, active: map<Id, Schedule>, c: Company)
    requires c in cs
    ensures forall e :: e in CompanyEvents(c, active) ==> e in Events(cs, active)
  {
    if cs[0] != c {
      CompanyEventsIncluded(cs[1..], active, c);
    }
  }

  /** Every upcoming event is the active schedule of one of the companies. */
  lemma {:induction false} UpcomingEventsAreSchedules(cs: seq<Company>, active: map<Id, Schedule>, e: Event)
    requires e in Events(cs, active) && e.kind == Upcoming
    ensures exists c :: (c in cs && c.id == e.companyId && c.id in active
      && e.date == active[c.id].scheduledDate && e.channel == Some(active[c.id].communicationType))
  {
    var c := cs[0];
    PastEventsFollowLog(c, c.lastCommunications);
    if e in PastEvents(c, c.lastCommunications) {
      assert false;
    } else if e in UpcomingEvents(c, active) {
      assert c in cs;
    } else {
      UpcomingEventsAreSchedules(cs[1..], active, e);
      var c' :| c' in cs[1..] && c'.id == e.companyId && c'.id in active
        && e.date == active[c'.id].scheduledDate && e.channel == Some(active[c'.id].communicationType);
      assert c' in cs;
    }
  }

  /** The colour of a company's upcoming event agrees with its notification: red exactly when it is
      overdue, yellow exactly when it is due today, blue exactly when it is in neither list. */
  lemma UpcomingColorIsNotice(c: Company, active: map<Id, Schedule>, today: Date)
    requires c.id in active
    ensures var e := UpcomingEvents(c, active)[0];
      && (EventColor(e, today) == Red <==> NoticeOf(c, active, today) == Overdue)
      && (EventColor(e, today) == Yellow <==> NoticeOf(c, active, today) == DueToday)
      && (EventColor(e, today) == Blue <==> NoticeOf(c, active, today) == Quiet)
  {
  }

  /** Dragging an upcoming event to a day and filing the rescheduled schedule that comes back puts the
      company's upcoming event on that day with the same method. */
  lemma MovedEventLands(cs: seq<Company>, active: map<Id, Schedule>, e: Event, newDate: Date, s: Schedule)
    requires e in Events(cs, active) && Draggable(e)
    requires MoveEvent(e, newDate).Some?
    requires s.companyId == e.companyId
    requires s.communicationType == MoveEvent(e, newDate).value.communicationType
    requires s.scheduledDate == MoveEvent(e, newDate).value.scheduledDate
    ensures exists e' :: (e' in Events(cs, active[e.companyId := s]) && e'.kind == Upcoming
      && e'.companyId == e.companyId && e'.date == newDate && e'.channel == e.channel)
  {
    UpcomingEventsAreSchedules(cs, active, e);
    var c :| c in cs && c.id == e.companyId && c.id in active
      && e.date == active[c.id].scheduledDate && e.channel == Some(active[c.id].communicationType);
    var active' := active[e.companyId := s];
    CompanyEventsIncluded(cs, active', c);
    var e' := UpcomingEvents(c, active')[0];
    assert e' in CompanyEvents(c, active');
  }
}
