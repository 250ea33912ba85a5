/** The company card: how it decides its highlight and what its schedule section shows. */
module Card {
  import opened Domain
  import opened Notifications

  /** The notification lists the card is given. */
  datatype NoticeLists = NoticeLists(overdue: seq<Company>, dueToday: seq<Company>)

  /** The card's background: red for overdue, yellow for due today, plain otherwise. */
  datatype Highlight = RedHighlight | YellowHighlight | Plain

  /** The schedule section: whether it shows the schedule or "Not Scheduled", whether the Cancel button
      is there, and the main button's label. */
  datatype ScheduleSection = ScheduleSection(notScheduled: bool, cancelShown: bool, buttonLabel: string)

  /** Whether a highlight is switched off for the company; a company never toggled is not muted. */
  function Muted(highlightDisabled: map<Id, bool>, id: Id): bool
  {
    id in highlightDisabled && highlightDisabled[id]
  }

  /** The `.some` test: a company with this id is in the list. */
  predicate Listed(list: seq<Company>, id: Id)
  {
    exists i :: 0 <= i < |list| && list[i].id == id
  }

  /** highlightClass: a muted card is plain; otherwise overdue wins over due today. */
  function CardHighlight(c: Company, lists: NoticeLists, highlightDisabled: map<Id, bool>): Highlight
  {
    if !Muted(highlightDisabled, c.id) && Listed(lists.overdue, c.id) then RedHighlight
    else if !Muted(highlightDisabled, c.id) && Listed(lists.dueToday, c.id) then YellowHighlight
    else Plain
  }

  /** The schedule section of a company's card. */
  function ScheduleSectionOf(c: Company, active: map<Id, Schedule>): (r: ScheduleSection)
    ensures r.notScheduled <==> c.id !in active
    ensures r.cancelShown <==> c.id in active
    ensures r.buttonLabel == "Update" <==> c.id in active
    ensures r.buttonLabel == "Schedule" <==> c.id !in active
  {
    if c.id in active then ScheduleSection(false, true, "Update") else ScheduleSection(true, false, "Schedule")
  }

  /** The highlight priority: a muted card is plain whatever the lists say; an unmuted card is red when
      listed as overdue, yellow when only listed as due today, and plain when in neither list. */
  lemma HighlightPriority(c: Company, lists: NoticeLists, highlightDisabled: map<Id, bool>)
    ensures Muted(highlightDisabled, c.id) ==> CardHighlight(c, lists, highlightDisabled) == Plain
    ensures CardHighlight(c, lists, highlightDisabled) == RedHighlight <==>
      !Muted(highlightDisabled, c.id) && Listed(lists.overdue, c.id)
    ensures CardHighlight(c, lists, highlightDisabled) == YellowHighlight <==>
      !Muted(highlightDisabled, c.id) && !Listed(lists.overdue, c.id) && Listed(lists.dueToday, c.id)
  {
  }

  /** With distinct ids, the membership test by id agrees with the company's own notice. */
  lemma {:induction false} ListedIffNotice(cs: seq<Company>, active: map<Id, Schedule>, today: Date, c: Company, k: Notice)
    requires DistinctIds(cs) && c in cs
    ensures Listed(Select(cs, active, today, k), c.id) <==> NoticeOf(c, active, today) == k
  {
    var sel := Select(cs, active, today, k);
    SelectMembership(cs, active, today, k);
    if Listed(sel, c.id) {
      var i :| 0 <= i < |sel| && sel[i].id == c.id;
      assert sel[i] in sel;
      var a :| 0 <= a < |cs| && cs[a] == sel[i];
      var b :| 0 <= b < |cs| && cs[b] == c;
      assert a == b;
    }
    if NoticeOf(c, active, today) == k {
      var i :| 0 <= i < |sel| && sel[i] == c;
      assert sel[i].id == c.id;
    }
  }

  /** On fresh notification lists, a card is red exactly when the company is overdue and not muted, yellow
      exactly when it is due today and not muted, and plain otherwise. */
  lemma CardReflectsNotice(cs: seq<Company>, active: map<Id, Schedule>, today: Date, c: Company,
                           highlightDisabled: map<Id, bool>)
    requires DistinctIds(cs) && c in cs
    ensures var lists := NoticeLists(Select(cs, active, today, Overdue), Select(cs, active, today, DueToday));
      && (CardHighlight(c, lists, highlightDisabled) == RedHighlight <==>
            !Muted(highlightDisabled, c.id) && NoticeOf(c, active, today) == Overdue)
      && (CardHighlight(c, lists, highlightDisabled) == YellowHighlight <==>
            !Muted(highlightDisabled, c.id) && NoticeOf(c, active, today) == DueToday)
  {
    ListedIffNotice(cs, active, today, c, Overdue);
    ListedIffNotice(cs, active, today, c, DueToday);
  }
}
