/**
 * The bulk role cog: `globalrole <operation> <role>` adds a role to, or removes
 * it from, every member of the server, one member at a time, with a progress
 * message every ten members. Two flags form the job control: `busy` while a job
 * runs, and `stop`, which a `stop` request raises during a run and which the
 * loop checks after each member.
 */
module BulkRole {
  import opened Wrappers
  import opened Text

  type RoleId = string

  /** A role of the server: its id and its place in the role hierarchy, a total order. */
  datatype Role = Role(id: RoleId, rank: int)

  /** A `globalrole` request together with what the handler looks up on the platform. */
  datatype Request = Request(
    operation: string,
    role: Option<Role>,           // the role found by name, if any
    botCanManageRoles: bool,
    authorTopRank: int,
    botTopRank: int)

  datatype Op = AddOp | RemoveOp | StopOp

  datatype Reply =
    | Stopping
    | NothingRunning
    | AlreadyRunning
    | InvalidOperation
    | NoSuchRole
    | BotCannotManageRoles
    | AboveAuthor
    | AboveBot
    | Aborted(count: nat, total: nat)
    | AddedToAll(count: nat, total: nat)
    | RemovedFromAll(count: nat, total: nat)

  datatype Effect =
    | Say(reply: Reply)
    | Progress(adding: bool, count: nat, total: nat)   // posted, or edited in place
    | AddRole(member: nat, role: RoleId)
    | RemoveRole(member: nat, role: RoleId)
    | DeleteProgress

  /** The operations `["add", "remove", "stop"]`, after lowering. */
  function ParseOp(lowered: string): (op: Option<Op>)
    ensures op.Some? <==> lowered in {"add", "remove", "stop"}
  {
    if lowered == "add" then Some(AddOp)
    else if lowered == "remove" then Some(RemoveOp)
    else if lowered == "stop" then Some(StopOp)
    else None
  }

  datatype Admission = Refused(reply: Reply) | Admitted(op: Op, role: Role)

  /** The checks a request passes before any member is touched, in the handler's order. */
  function Admit(req: Request): (a: Admission)
    ensures a.Admitted? <==>
              && ParseOp(Lower(req.operation)).Some?
              && req.role.Some?
              && req.botCanManageRoles
              && req.role.value.rank < req.authorTopRank
              && req.role.value.rank < req.botTopRank
    ensures a.Admitted? ==> a.op == ParseOp(Lower(req.operation)).value && a.role == req.role.value
    ensures ParseOp(Lower(req.operation)).None? ==> a == Refused(InvalidOperation)
    ensures ParseOp(Lower(req.operation)).Some? && req.role.None? ==> a == Refused(NoSuchRole)
  {
    var op := ParseOp(Lower(req.operation));
    if op.None? then Refused(InvalidOperation)
    else if req.role.None? then Refused(NoSuchRole)
    else if !req.botCanManageRoles then Refused(BotCannotManageRoles)
    else if req.role.value.rank >= req.authorTopRank then Refused(AboveAuthor)
    else if req.role.value.rank >= req.botTopRank then Refused(AboveBot)
    else Admitted(op.value, req.role.value)
  }

  /** A member's roles after the operation. */
  function ApplyOp(op: Op, r: RoleId, roles: set<RoleId>): set<RoleId> {
    match op
    case AddOp => roles + {r}
    case RemoveOp => roles - {r}
    case StopOp => roles
  }

  /** The calls made while processing member i (count becomes i + 1) of a roster of `total`. */
  function MemberEffects(op: Op, r: RoleId, roles: set<RoleId>, i: nat, total: nat): seq<Effect> {
    (if op == AddOp && r !in roles then [AddRole(i, r)]
     else if op == RemoveOp && r in roles then [RemoveRole(i, r)]
     else [])
    + (if (i + 1) % 10 == 0 && op != StopOp then [Progress(op == AddOp, i + 1, total)] else [])
  }

  /** The calls made while processing the first n members. */
  function LoopEffects(op: Op, r: RoleId, roster: seq<set<RoleId>>, n: nat): seq<Effect>
    requires n <= |roster|
  {
    if n == 0 then []
    else LoopEffects(op, r, roster, n - 1) + MemberEffects(op, r, roster[n - 1], n - 1, |roster|)
  }

  /** The progress message the job starts with. */
  function StartEffects(op: Op, total: nat): seq<Effect> {
    if op == StopOp then [] else [Progress(op == AddOp, 0, total)]
  }

  /** The stop flag is up at the check after some member of the roster. */
  predicate StopSeen(stop0: bool, stopAt: Option<nat>, size: nat) {
    stop0 || (stopAt.Some? && stopAt.value < size)
  }

  /**
   * How many members the loop processes: the check comes after each member, so
   * a stop raised while member k is handled ends the run with k + 1 processed.
   */
  function Processed(stop0: bool, stopAt: Option<nat>, size: nat): (n: nat)
    ensures n <= size
    ensures size > 0 ==> n >= 1
    ensures !StopSeen(stop0, stopAt, size) ==> n == size
    ensures !stop0 && stopAt.Some? && stopAt.value < size ==> n == stopAt.value + 1
  {
    if size == 0 then 0
    else if stop0 then 1
    else if stopAt.Some? && stopAt.value < size then stopAt.value + 1
    else size
  }

  /** The check after member i sees the flag when it was up before or is raised while i is handled. */
  lemma StopSeenStep(stop0: bool, stopAt: Option<nat>, i: nat)
    ensures StopSeen(stop0, stopAt, i + 1) <==> StopSeen(stop0, stopAt, i) || stop0 || stopAt == Some(i)
  {
  }

  /** A run first stopped by the check after member i has processed i + 1 members. */
  lemma StoppedAfter(stop0: bool, stopAt: Option<nat>, size: nat, i: nat)
    requires i < size && (stop0 || stopAt == Some(i))
    requires i == 0 || !StopSeen(stop0, stopAt, i)
    ensures Processed(stop0, stopAt, size) == i + 1 && StopSeen(stop0, stopAt, size)
  {
  }

  /** What follows the loop: the handler fails before this point when the operation is `stop`. */
  function FinishEffects(op: Op, stopped: bool, count: nat, total: nat): seq<Effect> {
    if op == StopOp then []
    else if stopped then [DeleteProgress, Say(Aborted(count, total))]
    else if op == AddOp then [DeleteProgress, Say(AddedToAll(count, total))]
    else [DeleteProgress, Say(RemovedFromAll(count, total))]
  }

  class GlobalRole {
    var busy: bool
    var stop: bool

    constructor ()
      ensures !busy && !stop
    {
      busy := false;
      stop := false;
    }

    /** The body of the member loop for one member, `count` members having been handled before it. */
    method Member(op: Op, r: RoleId, roles: set<RoleId>, count: nat, total: nat)
      returns (updated: set<RoleId>, calls: seq<Effect>)
      ensures updated == ApplyOp(op, r, roles)
      ensures calls == MemberEffects(op, r, roles, count, total)
    {
      updated, calls := roles, [];
      if op == AddOp && r !in roles {
        updated := roles + {r};
        calls := [AddRole(count, r)];
      } else if op == RemoveOp && r in roles {
        updated := roles - {r};
        calls := [RemoveRole(count, r)];
      }
      var handled := count + 1;
      if handled % 10 == 0 {
        if op == AddOp {
          calls := calls + [Progress(true, handled, total)];
        } else if op == RemoveOp {
          calls := calls + [Progress(false, handled, total)];
        }
      }
    }

    /** The `for member in server.members` loop, run while busy. */
    method Pass(op: Op, r: RoleId, roster: seq<set<RoleId>>, stopAt: Option<nat>)
      returns (members: seq<set<RoleId>>, count: nat, effects: seq<Effect>)
      requires busy
      modifies this`stop
      ensures count == Processed(old(stop), stopAt, |roster|)
      ensures |members| == |roster|
      ensures forall i :: 0 <= i < |roster| ==>
                members[i] == if i < count then ApplyOp(op, r, roster[i]) else roster[i]
      ensures effects == LoopEffects(op, r, roster, count)
      ensures stop == StopSeen(old(stop), stopAt, |roster|)
    {
      members, count, effects := roster, 0, [];
      var total := |roster|;
      var i := 0;
      while i < |roster|
        invariant 0 <= i <= |roster| && count == i
        invariant |members| == |roster|
        invariant forall j :: 0 <= j < |roster| ==>
                    members[j] == if j < i then ApplyOp(op, r, roster[j]) else roster[j]
        invariant effects == LoopEffects(op, r, roster, i)
        invariant stop == (i == 0 && old(stop))
        invariant i > 0 ==> !StopSeen(old(stop), stopAt, i)
      {
        var roles := members[i];
        assert roles == roster[i];
        var updated, calls := Member(op, r, roles, count, total);
        members := members[i := updated];
        effects := effects + calls;
        count := count + 1;
        assert effects == LoopEffects(op, r, roster, i + 1);
        if stopAt == Some(i) {
          stop := busy;   // the concurrent `stop` request: `self.stop = self.busy`
        }
        if stop {
          StoppedAfter(old(stop), stopAt, |roster|, i);
          break;
        }
        StopSeenStep(old(stop), stopAt, i);
        i := i + 1;
      }
    }

    /**
     * `globalrole`. A `stop` request from another invocation that arrives while
     * member k is awaited is given as stopAt == Some(k).
     */
    method Run(req: Request, roster: seq<set<RoleId>>, stopAt: Option<nat>)
      returns (members: seq<set<RoleId>>, count: nat, effects: seq<Effect>)
      modifies this
      ensures req.operation == "stop" ==>
                && busy == old(busy) && stop == old(busy) && members == roster && count == 0
                && effects == [Say(if old(busy) then Stopping else NothingRunning)]
      ensures req.operation != "stop" && old(busy) ==>
                && busy && stop == old(stop) && members == roster && count == 0
                && effects == [Say(AlreadyRunning)]
      ensures req.operation != "stop" && !old(busy) && Admit(req).Refused? ==>
                && !busy && stop == old(stop) && members == roster && count == 0
                && effects == [Say(Admit(req).reply)]
      ensures req.operation != "stop" && !old(busy) && Admit(req).Admitted? ==>
                var op, r := Admit(req).op, Admit(req).role.id;
                var stopped := StopSeen(old(stop), stopAt, |roster|);
                && !busy
                && count == Processed(old(stop), stopAt, |roster|)
                && |members| == |roster|
                && (forall i :: 0 <= i < |roster| ==>
                      members[i] == if i < count then ApplyOp(op, r, roster[i]) else roster[i])
                && effects == StartEffects(op, |roster|) + LoopEffects(op, r, roster, count)
                              + FinishEffects(op, stopped, count, |roster|)
                && stop == (op == StopOp && stopped)
    {
      members, count := roster, 0;
      if req.operation == "stop" {
        stop := busy;
        if stop {
          effects := [Say(Stopping)];
        } else {
          effects := [Say(NothingRunning)];
        }
        return;
      }
      if busy {
        effects := [Say(AlreadyRunning)];
        return;
      }
      var lowered := Lower(req.operation);
      if lowered !in ["add", "remove", "stop"] {
        effects := [Say(InvalidOperation)];
        return;
      }
      if req.role.None? {
        effects := [Say(NoSuchRole)];
        return;
      }
      var role := req.role.value;
      if !req.botCanManageRoles {
        effects := [Say(BotCannotManageRoles)];
        return;
      }
      if role.rank >= req.authorTopRank {
        effects := [Say(AboveAuthor)];
        return;
      }
      if role.rank >= req.botTopRank {
        effects := [Say(AboveBot)];
        return;
      }
      var op := ParseOp(lowered).value;
      busy := true;
      var total := |roster|;
      effects := [];
      if op == AddOp {
        effects := [Progress(true, count, total)];
      } else if op == RemoveOp {
        effects := [Progress(false, count, total)];
      }
      var fx;
      members, count, fx := Pass(op, role.id, roster, stopAt);
      effects := effects + fx;
      busy := false;
      if op == StopOp {
        return;         // the progress message was never sent: the handler raises here
      }
      effects := effects + [DeleteProgress];
      if stop {
        effects := effects + [Say(Aborted(count, total))];
        stop := false;
        return;
      }
      if op == AddOp {
        effects := effects + [Say(AddedToAll(count, total))];
      } else {
        effects := effects + [Say(RemovedFromAll(count, total))];
      }
    }
  }

  // ---------------------------------------------------------------------------
  // Properties of the member loop

  /** The calls for the first n members are those for the first n - 1, then member n - 1's. */
  lemma LoopEffectsSplit(op: Op, r: RoleId, roster: seq<set<RoleId>>, n: nat, e: Effect)
    requires 0 < n <= |roster|
    ensures e in LoopEffects(op, r, roster, n) <==>
              e in LoopEffects(op, r, roster, n - 1) || e in MemberEffects(op, r, roster[n - 1], n - 1, |roster|)
  {
  }

  /** Call e is made while processing one of the first n members. */
  predicate MadeForSome(op: Op, r: RoleId, roster: seq<set<RoleId>>, n: nat, e: Effect)
    requires n <= |roster|
  {
    exists j :: 0 <= j < n && e in MemberEffects(op, r, roster[j], j, |roster|)
  }

  /** A call is made by the loop exactly when it is made for one of the members processed. */
  lemma {:induction false} LoopMember(op: Op, r: RoleId, roster: seq<set<RoleId>>, n: nat, e: Effect)
    requires n <= |roster|
    ensures e in LoopEffects(op, r, roster, n) <==> MadeForSome(op, r, roster, n, e)
  {
    if n > 0 {
      MadeForSomeSnoc(op, r, roster, n, e);
      LoopMember(op, r, roster, n - 1, e);
      LoopEffectsSplit(op, r, roster, n, e);
    }
  }

  /** The members before n are those before n - 1 and member n - 1. */
  lemma MadeForSomeSnoc(op: Op, r: RoleId, roster: seq<set<RoleId>>, n: nat, e: Effect)
    requires 0 < n <= |roster|
    ensures MadeForSome(op, r, roster, n, e) <==>
              MadeForSome(op, r, roster, n - 1, e) || e in MemberEffects(op, r, roster[n - 1], n - 1, |roster|)
  {
    if MadeForSome(op, r, roster, n - 1, e) {
      var j :| 0 <= j < n - 1 && e in MemberEffects(op, r, roster[j], j, |roster|);
      assert 0 <= j < n && e in MemberEffects(op, r, roster[j], j, |roster|);
    }
    if e in MemberEffects(op, r, roster[n - 1], n - 1, |roster|) {
      assert 0 <= n - 1 < n && e in MemberEffects(op, r, roster[n - 1], n - 1, |roster|);
    }
    if MadeForSome(op, r, roster, n, e) {
      var j :| 0 <= j < n && e in MemberEffects(op, r, roster[j], j, |roster|);
      if j < n - 1 {
        assert 0 <= j < n - 1 && e in MemberEffects(op, r, roster[j], j, |roster|);
      }
    }
  }

  /** Progress is reported exactly at every tenth member processed, and only for add and remove. */
  lemma ProgressCadence(op: Op, r: RoleId, roster: seq<set<RoleId>>, n: nat, c: nat)
    requires n <= |roster|
    ensures op != StopOp ==>
              (Progress(op == AddOp, c, |roster|) in LoopEffects(op, r, roster, n) <==> 1 <= c <= n && c % 10 == 0)
  {
    var e := Progress(op == AddOp, c, |roster|);
    LoopMember(op, r, roster, n, e);
    if e in LoopEffects(op, r, roster, n) {
      var j :| 0 <= j < n && e in MemberEffects(op, r, roster[j], j, |roster|);
      MemberProgress(op, r, roster[j], j, |roster|, e);
    }
    if op != StopOp && 1 <= c <= n && c % 10 == 0 {
      MemberProgress(op, r, roster[c - 1], c - 1, |roster|, e);
      assert 0 <= c - 1 < n && e in MemberEffects(op, r, roster[c - 1], c - 1, |roster|);
    }
  }

  /** Every progress report names the operation, the roster size and a tenth member. */
  lemma ProgressOnlyAtTenths(op: Op, r: RoleId, roster: seq<set<RoleId>>, n: nat, e: Effect)
    requires n <= |roster|
    ensures e in LoopEffects(op, r, roster, n) && e.Progress? ==>
              op != StopOp && e.adding == (op == AddOp) && e.total == |roster| && 1 <= e.count <= n && e.count % 10 == 0
  {
    if e in LoopEffects(op, r, roster, n) && e.Progress? {
      LoopMember(op, r, roster, n, e);
      var j :| 0 <= j < n && e in MemberEffects(op, r, roster[j], j, |roster|);
      MemberProgress(op, r, roster[j], j, |roster|, e);
    }
  }

  /** One member's calls hold a progress report exactly when it is a tenth member. */
  lemma MemberProgress(op: Op, r: RoleId, roles: set<RoleId>, i: nat, total: nat, e: Effect)
    ensures e in MemberEffects(op, r, roles, i, total) && e.Progress? <==>
              op != StopOp && (i + 1) % 10 == 0 && e == Progress(op == AddOp, i + 1, total)
  {
  }

  /** One member's calls add a role only to that member, and only when it lacks the role. */
  lemma MemberAddCalls(op: Op, r: RoleId, roles: set<RoleId>, j: nat, total: nat, i: nat, x: RoleId)
    ensures AddRole(i, x) in MemberEffects(op, r, roles, j, total) <==> op == AddOp && x == r && i == j && r !in roles
  {
  }

  /** One member's calls remove a role only from that member, and only when it holds the role. */
  lemma MemberRemoveCalls(op: Op, r: RoleId, roles: set<RoleId>, j: nat, total: nat, i: nat, x: RoleId)
    ensures RemoveRole(i, x) in MemberEffects(op, r, roles, j, total) <==> op == RemoveOp && x == r && i == j && r in roles
  {
  }

  /** The role is added to member i only by `add`, and only when the member lacks it. */
  lemma AddOnlyWhenMissing(op: Op, r: RoleId, roster: seq<set<RoleId>>, n: nat, i: nat, x: RoleId)
    requires n <= |roster|
    ensures AddRole(i, x) in LoopEffects(op, r, roster, n) <==> op == AddOp && x == r && i < n && r !in roster[i]
  {
    var e := AddRole(i, x);
    LoopMember(op, r, roster, n, e);
    if e in LoopEffects(op, r, roster, n) {
      var j :| 0 <= j < n && e in MemberEffects(op, r, roster[j], j, |roster|);
      MemberAddCalls(op, r, roster[j], j, |roster|, i, x);
    } else if i < n {
      MemberAddCalls(op, r, roster[i], i, |roster|, i, x);
    }
  }

  /** The role is removed from member i only by `remove`, and only when the member holds it. */
  lemma RemoveOnlyWhenHeld(op: Op, r: RoleId, roster: seq<set<RoleId>>, n: nat, i: nat, x: RoleId)
    requires n <= |roster|
    ensures RemoveRole(i, x) in LoopEffects(op, r, roster, n) <==> op == RemoveOp && x == r && i < n && r in roster[i]
  {
    var e := RemoveRole(i, x);
    LoopMember(op, r, roster, n, e);
    if e in LoopEffects(op, r, roster, n) {
      var j :| 0 <= j < n && e in MemberEffects(op, r, roster[j], j, |roster|);
      MemberRemoveCalls(op, r, roster[j], j, |roster|, i, x);
    } else if i < n {
      MemberRemoveCalls(op, r, roster[i], i, |roster|, i, x);
    }
  }

  /** After processing, a member has the role (add) or lacks it (remove). */
  lemma ApplyOpEstablishes(op: Op, r: RoleId, roles: set<RoleId>)
    ensures op == AddOp ==> r in ApplyOp(op, r, roles)
    ensures op == RemoveOp ==> r !in ApplyOp(op, r, roles)
    ensures ApplyOp(op, r, roles) - {r} == roles - {r}
  {
  }

  /** A job that ran to the end leaves the flags down, so the next request is served. */
  method NextRequestIsServed(g: GlobalRole, req: Request, roster: seq<set<RoleId>>)
    requires !g.busy && !g.stop
    requires req.operation != "stop" && Admit(req).Admitted? && Admit(req).op != StopOp
    modifies g
    ensures !g.busy && !g.stop
  {
    var members, count, effects := g.Run(req, roster, None);
    assert !g.busy && !g.stop;
    members, count, effects := g.Run(req, members, None);
  }
}
