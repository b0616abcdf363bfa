/** The planning page's status strip (src/components/command-center/StatusStrip.tsx):
    the deadline countdown and the four chip badges. Times are milliseconds
    since the epoch; a deadline that does not parse is `None` (JavaScript's
    NaN, for which every comparison is false). */
module StatusStrip {
  import opened Common
  import opened Text

  const HourMs: nat := 1000 * 60 * 60

  /** `Math.max(0, Math.floor((deadline - now) / 3600000))`; NaN stays NaN. */
  function HoursRemaining(deadline: Option<int>, now: int): (h: Option<nat>)
    ensures h.None? <==> deadline.None?
    ensures h.Some? && deadline.value >= now ==>
              h.value * HourMs <= deadline.value - now < (h.value + 1) * HourMs
    ensures h.Some? && deadline.value < now ==> h.value == 0
  {
    match deadline
    case None => None
    case Some(d) =>
      var q := (d - now) / HourMs;
      Some(if q < 0 then 0 else q)
  }

  /** `deadline < now`; false for an unparseable deadline. */
  predicate DeadlinePassed(deadline: Option<int>, now: int) {
    deadline.Some? && deadline.value < now
  }

  /** The countdown text. */
  function DeadlineLabel(deadline: Option<int>, now: int): (s: string)
    ensures s == "Passed" <==> DeadlinePassed(deadline, now)
    ensures deadline.None? ==> s == "NaNh"
    ensures deadline.Some? && !DeadlinePassed(deadline, now) ==> ReadCountdown(s) == HoursRemaining(deadline, now)
  {
    match HoursRemaining(deadline, now)
    case None => "NaNh"
    case Some(h) =>
      if DeadlinePassed(deadline, now) then "Passed"
      else
        CountdownReadsBack(h);
        CountdownText(h)
  }

  /** "Dd Hh" with at least one whole day left, "Hh" otherwise. */
  function CountdownText(h: nat): (s: string)
    ensures |s| >= 2 && s[|s| - 1] == 'h'
  {
    var days := h / 24;
    if days > 0 then NatToString(days) + "d " + NatToString(h % 24) + "h"
    else NatToString(h) + "h"
  }

  /** Reads a countdown text back as a number of hours. */
  function ReadCountdown(s: string): Option<nat> {
    if |s| < 2 || s[|s| - 1] != 'h' then None
    else ReadBody(s[..|s| - 1])
  }

  /** The text before the final "h": plain hours, or days and hours. */
  function ReadBody(body: string): Option<nat> {
    if AllDigits(body) then Some(ParseDigits(body))
    else match FirstIndex(body, IsDayMark)
      case None => None
      case Some(k) => ReadDaysAt(body, k)
  }

  /** Days before the "d " at `k`, hours after it. */
  function ReadDaysAt(body: string, k: nat): Option<nat> {
    if 1 <= k && k + 2 <= |body| && body[k..k + 2] == "d " && AllDigits(body[..k]) && AllDigits(body[k + 2..])
    then Some(ParseDigits(body[..k]) * 24 + ParseDigits(body[k + 2..]))
    else None
  }

  predicate IsDayMark(c: char) { c == 'd' }

  /** A text of the form "<a>d <b>h" with digit strings `a` and `b` reads
      back as `a` days and `b` hours. */
  lemma ReadDaysForm(a: string, b: string)
    requires |a| >= 1 && AllDigits(a) && AllDigits(b)
    ensures ReadCountdown(a + "d " + b + "h") == Some(ParseDigits(a) * 24 + ParseDigits(b))
  {
    var s := a + "d " + b + "h";
    var body := a + "d " + b;
    assert s[..|s| - 1] == body;
    assert !AllDigits(body) by { assert body[|a|] == 'd'; }
    assert forall i :: 0 <= i < |a| ==> !IsDayMark(body[i]) by {
      assert forall i :: 0 <= i < |a| ==> body[i] == a[i];
    }
    assert IsDayMark(body[|a|]);
    assert FirstIndex(body, IsDayMark) == Some(|a|);
    assert body[..|a|] == a && body[|a| + 2..] == b && body[|a|..|a| + 2] == "d ";
    ReadDaysAtSplit(body, |a|, a, b);
  }

  lemma ReadDaysAtSplit(body: string, k: nat, a: string, b: string)
    requires 1 <= k && k + 2 <= |body|
    requires body[..k] == a && body[k..k + 2] == "d " && body[k + 2..] == b
    requires AllDigits(a) && AllDigits(b)
    ensures ReadDaysAt(body, k) == Some(ParseDigits(a) * 24 + ParseDigits(b))
  {
  }

  /** The countdown text reads back as the hours remaining: days times 24
      plus the hours left over. */
  lemma CountdownReadsBack(h: nat)
    ensures ReadCountdown(CountdownText(h)) == Some(h)
  {
    var days := h / 24;
    if days > 0 {
      var a, b := NatToString(days), NatToString(h % 24);
      ParseNatToString(days);
      ParseNatToString(h % 24);
      ReadDaysForm(a, b);
    } else {
      var s := CountdownText(h);
      assert s[..|s| - 1] == NatToString(h);
      ParseNatToString(h);
    }
  }

  /** The countdown never grows as time passes. */
  lemma CountdownShrinks(deadline: int, t1: int, t2: int)
    requires t1 <= t2
    ensures HoursRemaining(Some(deadline), t2).value <= HoursRemaining(Some(deadline), t1).value
  {
    var q1, q2 := (deadline - t1) / HourMs, (deadline - t2) / HourMs;
    assert q2 <= q1 by {
      assert q2 * HourMs <= deadline - t2 <= deadline - t1 < (q1 + 1) * HourMs;
    }
  }

  /** A chip's state: available or not, and the gameweek it was used in. */
  datatype ChipState = ChipState(available: bool, used: Option<string>)

  datatype Chips = Chips(wildcard: ChipState, freehit: ChipState, bboost: ChipState, tcaptain: ChipState)

  datatype Badge = Badge(name: string, tooltip: string, lit: bool)

  /** "Used in X" when a non-empty `used` is present, otherwise whether the
      chip is available. */
  function Tooltip(c: ChipState): (t: string)
    ensures c.used.Some? && c.used.value != "" ==> t == "Used in " + c.used.value
    ensures (c.used.None? || c.used.value == "") ==> (t == "Available" <==> c.available)
  {
    match c.used
    case Some(u) => if u != "" then "Used in " + u else if c.available then "Available" else "Not available"
    case None => if c.available then "Available" else "Not available"
  }

  /** A tooltip starts with "Used in " exactly when the chip has a non-empty
      used gameweek, and the rest of it is that gameweek. */
  lemma TooltipReadsBack(c: ChipState)
    ensures (c.used.Some? && c.used.value != "") <==> (|Tooltip(c)| > 8 && Tooltip(c)[..8] == "Used in ")
    ensures c.used.Some? && c.used.value != "" ==> Tooltip(c)[8..] == c.used.value
  {
    if c.used.None? || c.used.value == "" {
      var t := Tooltip(c);
      assert t[0] == (if c.available then 'A' else 'N');
      assert "Used in "[0] == 'U';
    }
  }

  function ChipBadge(name: string, c: ChipState): Badge {
    Badge(name, Tooltip(c), c.available)
  }

  /** The badges, always in the order the chip-name object lists its keys. */
  function ChipBadges(chips: Chips): (bs: seq<Badge>)
    ensures |bs| == 4
    ensures bs[0].name == "WC" && bs[1].name == "FH" && bs[2].name == "BB" && bs[3].name == "TC"
    ensures bs[0].lit == chips.wildcard.available && bs[1].lit == chips.freehit.available
    ensures bs[2].lit == chips.bboost.available && bs[3].lit == chips.tcaptain.available
    ensures bs[0].tooltip == Tooltip(chips.wildcard) && bs[1].tooltip == Tooltip(chips.freehit)
    ensures bs[2].tooltip == Tooltip(chips.bboost) && bs[3].tooltip == Tooltip(chips.tcaptain)
  {
    [ChipBadge("WC", chips.wildcard), ChipBadge("FH", chips.freehit),
     ChipBadge("BB", chips.bboost), ChipBadge("TC", chips.tcaptain)]
  }
}
