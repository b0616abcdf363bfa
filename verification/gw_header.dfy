/** The overview page's gameweek header (src/components/GWOverview/GWHeader.tsx):
    whether the deadline has passed, and the Complete / In Progress /
    Upcoming status. The deadline is milliseconds since the epoch, `None`
    when it does not parse; the formatted date text is a parameter. */
module GwHeader {
  import opened Common
  import opened Text

  datatype GwStatus = Complete | InProgress | Upcoming

  /** The line under the title: "Finished", or the deadline text with an
      optional "(Passed)" marker. */
  datatype Subtitle = Finished | Deadline(dateText: string, passedMarker: bool)

  datatype Header = Header(title: string, subtitle: Subtitle, status: GwStatus)

  /** `info.isFinished || deadlineDate < new Date()`. */
  predicate IsDeadlinePassed(isFinished: bool, deadline: Option<int>, now: int) {
    isFinished || (deadline.Some? && deadline.value < now)
  }

  function Status(isFinished: bool, deadline: Option<int>, now: int): (s: GwStatus)
    ensures s == Complete <==> isFinished
    ensures s == InProgress <==> !isFinished && deadline.Some? && deadline.value < now
    ensures s == Upcoming <==> !isFinished && (deadline.None? || deadline.value >= now)
  {
    if isFinished then Complete
    else if IsDeadlinePassed(isFinished, deadline, now) then InProgress
    else Upcoming
  }

  function RenderHeader(gameweek: int, isFinished: bool, deadline: Option<int>, now: int,
                        dateText: string): (h: Header)
    ensures h.title == "Gameweek " + IntToString(gameweek)
    ensures h.subtitle.Finished? <==> isFinished
    ensures h.subtitle.Deadline? ==> h.subtitle.dateText == dateText
    ensures h.subtitle.Deadline? ==> (h.subtitle.passedMarker <==> h.status == InProgress)
    ensures h.status == Status(isFinished, deadline, now)
  {
    Header("Gameweek " + IntToString(gameweek),
           if isFinished then Finished else Deadline(dateText, IsDeadlinePassed(isFinished, deadline, now)),
           Status(isFinished, deadline, now))
  }

  function Stage(s: GwStatus): nat {
    match s
    case Upcoming => 0
    case InProgress => 1
    case Complete => 2
  }

  /** The status only moves forward as time passes. */
  lemma StatusAdvances(isFinished: bool, deadline: Option<int>, t1: int, t2: int)
    requires t1 <= t2
    ensures Stage(Status(isFinished, deadline, t1)) <= Stage(Status(isFinished, deadline, t2))
  {
  }
}
