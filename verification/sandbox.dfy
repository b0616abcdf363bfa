/** The planning page's sandbox (src/pages/CommandCenterPage.tsx): a copy of
    the real squad that captaincy changes and transfers edit, with a log of
    transfer actions that can be undone one at a time or reset. Each handler
    is a pure transition on the sandbox state. */
module Sandbox {
  import opened Common
  import opened Squad

  /** A logged action; only transfers are logged. Timestamps are not kept. */
  datatype Action = TransferAction(playerInId: int, playerOutId: int)

  datatype SandboxState = SandboxState(realSquad: seq<EnhancedPlayer>, squad: seq<EnhancedPlayer>,
                                       actions: seq<Action>)

  /** The captaincy edit for one player: the chosen player becomes captain,
      a previous captain becomes vice-captain, everyone else loses the
      vice-captaincy. */
  function Recaptain(p: EnhancedPlayer, id: int): EnhancedPlayer {
    if p.id == id then p.(isCaptain := true, isViceCaptain := false)
    else if p.isCaptain then p.(isCaptain := false, isViceCaptain := true)
    else p.(isViceCaptain := false)
  }

  /** `handleSetCaptain`. */
  function SetCaptain(squad: seq<EnhancedPlayer>, id: int): (r: seq<EnhancedPlayer>)
    ensures |r| == |squad|
    ensures forall i :: 0 <= i < |r| ==>
      r[i] == squad[i].(isCaptain := r[i].isCaptain, isViceCaptain := r[i].isViceCaptain)
    ensures forall i :: 0 <= i < |r| ==> (r[i].isCaptain <==> squad[i].id == id)
    ensures forall i :: 0 <= i < |r| ==>
      (r[i].isViceCaptain <==> squad[i].id != id && squad[i].isCaptain)
  {
    seq(|squad|, i requires 0 <= i < |squad| => Recaptain(squad[i], id))
  }

  function WasOtherCaptain(id: int): EnhancedPlayer -> bool {
    (p: EnhancedPlayer) => p.isCaptain && p.id != id
  }

  /** After `SetCaptain(id)` there are as many captains as players with
      that id (one for a unique id, none for an absent one), and as many
      vice-captains as there were captains with another id. */
  lemma CaptainCounts(squad: seq<EnhancedPlayer>, id: int)
    ensures Count(SetCaptain(squad, id), IsCaptain) == Count(squad, HasId(id))
    ensures Count(SetCaptain(squad, id), IsViceCaptain) == Count(squad, WasOtherCaptain(id))
  {
    var r := SetCaptain(squad, id);
    CountPointwise(r, IsCaptain, squad, HasId(id));
    CountPointwise(r, IsViceCaptain, squad, WasOtherCaptain(id));
  }

  /** Choosing the current captain again clears the vice-captaincy: the
      second call finds no other captain to demote. */
  lemma SetCaptainTwice(squad: seq<EnhancedPlayer>, id: int)
    ensures var r := SetCaptain(SetCaptain(squad, id), id);
      && (forall i :: 0 <= i < |r| ==> !r[i].isViceCaptain)
      && (forall i :: 0 <= i < |r| ==> (r[i].isCaptain <==> squad[i].id == id))
  {
  }

  /** Index of the element the reduce `(a, b) => a.xPts > b.xPts ? a : b`
      returns: the accumulator survives only when strictly greater, so ties
      go to the later element. */
  function ReduceBestIndex(s: seq<EnhancedPlayer>): (k: nat)
    requires |s| > 0
    ensures k < |s|
    ensures forall j :: 0 <= j < |s| ==> s[j].xPts <= s[k].xPts
    ensures forall j :: k < j < |s| ==> s[j].xPts < s[k].xPts
  {
    if |s| == 1 then 0
    else
      var init := s[..|s| - 1];
      var k := ReduceBestIndex(init);
      assert init[k] == s[k];
      assert forall j :: 0 <= j < |init| ==> init[j] == s[j];
      if s[k].xPts > s[|s| - 1].xPts then k else |s| - 1
  }

  /** `handleAutoCaptain`: with no starter nothing happens; otherwise the
      last starter with the highest expected points is made captain. */
  function AutoCaptain(squad: seq<EnhancedPlayer>): (r: seq<EnhancedPlayer>)
    ensures (forall i :: 0 <= i < |squad| ==> squad[i].isBench) ==> r == squad
    ensures (exists i :: 0 <= i < |squad| && !squad[i].isBench) ==>
      var starters := Filter(squad, IsStarter);
      exists k :: 0 <= k < |starters| && r == SetCaptain(squad, starters[k].id)
        && starters[k] in squad && !starters[k].isBench
        && (forall j :: 0 <= j < |squad| && !squad[j].isBench ==> squad[j].xPts <= starters[k].xPts)
        && (forall j :: k < j < |starters| ==> starters[j].xPts < starters[k].xPts)
  {
    var starters := Filter(squad, IsStarter);
    if |starters| == 0 then squad
    else
      var k := ReduceBestIndex(starters);
      BestStarterIsMaximal(squad, k);
      SetCaptain(squad, starters[k].id)
  }

  /** The reduce's pick is a starter whose expected points no starter exceeds. */
  lemma BestStarterIsMaximal(squad: seq<EnhancedPlayer>, k: nat)
    requires k < |Filter(squad, IsStarter)|
    requires forall j :: 0 <= j < |Filter(squad, IsStarter)| ==>
               Filter(squad, IsStarter)[j].xPts <= Filter(squad, IsStarter)[k].xPts
    ensures forall j :: 0 <= j < |squad| && !squad[j].isBench ==>
              squad[j].xPts <= Filter(squad, IsStarter)[k].xPts
  {
    var starters := Filter(squad, IsStarter);
    forall j | 0 <= j < |squad| && !squad[j].isBench
      ensures squad[j].xPts <= starters[k].xPts
    {
      assert IsStarter(squad[j]);
      assert squad[j] in starters;
    }
  }

  /** `handleTransfer`: the action is logged in every case; the first sandbox
      player with `playerOutId` is replaced by the first real-squad player
      with `playerInId`, and nothing changes when either is missing. */
  function Transfer(st: SandboxState, playerInId: int, playerOutId: int): (r: SandboxState)
    ensures r.realSquad == st.realSquad
    ensures r.actions == st.actions + [TransferAction(playerInId, playerOutId)]
    ensures (|| (forall i :: 0 <= i < |st.squad| ==> st.squad[i].id != playerOutId)
             || (forall j :: 0 <= j < |st.realSquad| ==> st.realSquad[j].id != playerInId))
            ==> r.squad == st.squad
    ensures (exists i :: 0 <= i < |st.squad| && st.squad[i].id == playerOutId) &&
            (exists j :: 0 <= j < |st.realSquad| && st.realSquad[j].id == playerInId) ==>
      exists i, j :: && 0 <= i < |st.squad| && st.squad[i].id == playerOutId
                     && (forall i' :: 0 <= i' < i ==> st.squad[i'].id != playerOutId)
                     && 0 <= j < |st.realSquad| && st.realSquad[j].id == playerInId
                     && (forall j' :: 0 <= j' < j ==> st.realSquad[j'].id != playerInId)
                     && r.squad == st.squad[i := st.realSquad[j]]
  {
    var actions := st.actions + [TransferAction(playerInId, playerOutId)];
    match (FirstIndex(st.squad, HasId(playerOutId)), FirstIndex(st.realSquad, HasId(playerInId)))
    case (Some(i), Some(j)) => SandboxState(st.realSquad, st.squad[i := st.realSquad[j]], actions)
    case _ => SandboxState(st.realSquad, st.squad, actions)
  }

  /** `handleUndo`: drops the last logged action; the squad is left as it is. */
  function Undo(st: SandboxState): (r: SandboxState)
    ensures r.realSquad == st.realSquad && r.squad == st.squad
    ensures |st.actions| == 0 ==> r.actions == []
    ensures |st.actions| > 0 ==> r.actions + [st.actions[|st.actions| - 1]] == st.actions
  {
    if |st.actions| == 0 then st
    else st.(actions := st.actions[..|st.actions| - 1])
  }

  /** `handleReset`: the sandbox becomes the real squad again, with an empty log. */
  function Reset(st: SandboxState): (r: SandboxState)
    ensures r.realSquad == st.realSquad && r.squad == st.realSquad && r.actions == []
  {
    SandboxState(st.realSquad, st.realSquad, [])
  }

  /** A user action on the sandbox. */
  datatype Command =
    | SetCaptainCmd(id: int)
    | AutoCaptainCmd
    | TransferCmd(playerInId: int, playerOutId: int)
    | UndoCmd
    | ResetCmd

  function Step(st: SandboxState, cmd: Command): SandboxState {
    match cmd
    case SetCaptainCmd(id) => st.(squad := SetCaptain(st.squad, id))
    case AutoCaptainCmd => st.(squad := AutoCaptain(st.squad))
    case TransferCmd(i, o) => Transfer(st, i, o)
    case UndoCmd => Undo(st)
    case ResetCmd => Reset(st)
  }

  /** The sandbox has the real squad's size and only real-squad players
      (by id) in it. */
  ghost predicate Valid(st: SandboxState) {
    && |st.squad| == |st.realSquad|
    && forall i :: 0 <= i < |st.squad| ==> HasPlayer(st.realSquad, st.squad[i].id)
  }

  ghost predicate HasPlayer(s: seq<EnhancedPlayer>, id: int) {
    exists j :: 0 <= j < |s| && s[j].id == id
  }

  /** Starting from the real squad is valid, and every command keeps the
      sandbox valid; only transfers grow the log, by exactly one entry. */
  lemma StepKeepsValid(st: SandboxState, cmd: Command)
    requires Valid(st)
    ensures Valid(Step(st, cmd))
    ensures Step(st, cmd).realSquad == st.realSquad
    ensures |Step(st, cmd).actions| == if cmd.TransferCmd? then |st.actions| + 1
                                      else if cmd.ResetCmd? then 0
                                      else if cmd.UndoCmd? && |st.actions| > 0 then |st.actions| - 1
                                      else |st.actions|
  {
    var r := Step(st, cmd);
    match cmd
    case SetCaptainCmd(_) =>
      SameIdsKeepValid(st, r);
    case AutoCaptainCmd =>
      SameIdsKeepValid(st, r);
    case TransferCmd(_, _) =>
      forall i | 0 <= i < |r.squad|
        ensures HasPlayer(r.realSquad, r.squad[i].id)
      {
        if r.squad[i] != st.squad[i] {
          var j :| 0 <= j < |st.realSquad| && r.squad[i] == st.realSquad[j];
          assert 0 <= j < |r.realSquad|;
          assert r.realSquad[j].id == r.squad[i].id;
        }
      }
    case UndoCmd =>
    case ResetCmd =>
      InitialValid(st.realSquad);
  }

  /** An edit that keeps every position's player id keeps the sandbox valid. */
  lemma SameIdsKeepValid(st: SandboxState, r: SandboxState)
    requires Valid(st)
    requires r.realSquad == st.realSquad && |r.squad| == |st.squad|
    requires forall i :: 0 <= i < |r.squad| ==> r.squad[i].id == st.squad[i].id
    ensures Valid(r)
  {
    forall i | 0 <= i < |r.squad|
      ensures HasPlayer(r.realSquad, r.squad[i].id)
    {
      var j :| 0 <= j < |st.realSquad| && st.realSquad[j].id == st.squad[i].id;
      assert r.realSquad[j].id == r.squad[i].id;
    }
  }

  lemma InitialValid(squad: seq<EnhancedPlayer>)
    ensures Valid(SandboxState(squad, squad, []))
  {
    forall i | 0 <= i < |squad|
      ensures HasPlayer(squad, squad[i].id)
    {
      assert squad[i].id == squad[i].id;
    }
  }
}
