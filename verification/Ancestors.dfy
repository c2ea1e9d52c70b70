/** Sessions that resume from sessions: the parent pointers and the walk up them. */
module Ancestors {
  import opened Wrappers

  datatype Stage = Planning | Executing | HandedToStructured | HandedToResearch | Completed | Failed | Escalated

  predicate Terminal(s: Stage) { s.Completed? || s.Failed? || s.Escalated? }

  datatype SessionState = SessionState(scenario: string, stage: Stage, userId: Option<string>, resumedFrom: Option<string>)

  /** The readable sessions on disk by id. A parent pointer may lead anywhere. */
  type Store = map<string, SessionState>

  /** `parent_session`: nothing without a pointer, and nothing when the parent is not there. */
  function Parent(store: Store, resumedFrom: Option<string>): Option<string> {
    if resumedFrom.Some? && resumedFrom.value in store then resumedFrom else None
  }

  // ---- The walk -----------------------------------------------------------------------------

  /** Where a pointer leads after n further steps; it may name a session that is not there. */
  function Nth(store: Store, from: Option<string>, n: nat): Option<string> {
    if n == 0 then from
    else
      var x := Nth(store, from, n - 1);
      if x.Some? && x.value in store then store[x.value].resumedFrom else None
  }

  /** Nearest parent first: each link is where the pointers lead next and is there, none occurs
      twice and none is the session itself. */
  ghost predicate IsWalk(store: Store, start: string, resumedFrom: Option<string>, c: seq<string>) {
    && (forall i | 0 <= i < |c| :: c[i] in store && c[i] != start && Nth(store, resumedFrom, i) == Some(c[i]))
    && (forall i, j | 0 <= i < j < |c| :: c[i] != c[j])
  }

  /** Nothing can be added: the last pointer leads nowhere, or back into the walk. */
  ghost predicate IsMaximal(store: Store, start: string, resumedFrom: Option<string>, c: seq<string>) {
    var next := Parent(store, Nth(store, resumedFrom, |c|));
    next.None? || next.value == start || next.value in c
  }

  function Reversed<T>(s: seq<T>): (r: seq<T>)
    ensures |r| == |s| && forall i | 0 <= i < |s| :: r[i] == s[|s| - 1 - i]
  {
    if s == [] then [] else Reversed(s[1..]) + [s[0]]
  }

  /** Every duplicate-free walk is a beginning of the maximal one. */
  lemma WalksAgree(store: Store, start: string, resumedFrom: Option<string>, c: seq<string>, d: seq<string>)
    requires IsWalk(store, start, resumedFrom, c) && IsWalk(store, start, resumedFrom, d)
    requires IsMaximal(store, start, resumedFrom, c)
    ensures d <= c
  {
    hide Nth;
    assert forall i | 0 <= i < |c| && i < |d| :: d[i] == c[i];
  }

  lemma WalkOn(store: Store, start: string, resumedFrom: Option<string>, c: seq<string>, id: string)
    requires IsWalk(store, start, resumedFrom, c) && Nth(store, resumedFrom, |c|) == Some(id)
    requires id in store && id != start && id !in c
    ensures IsWalk(store, start, resumedFrom, c + [id])
    ensures Nth(store, resumedFrom, |c + [id]|) == store[id].resumedFrom
  {}

  lemma ReversedTwice<T>(s: seq<T>)
    ensures Reversed(Reversed(s)) == s
  {}

  /** The walk up from a session whose pointer is `resumedFrom`, on any pointers whatever: oldest
      first, the longest duplicate-free walk. */
  method FindAncestorChain(store: Store, start: string, resumedFrom: Option<string>) returns (chain: seq<string>)
    ensures IsWalk(store, start, resumedFrom, Reversed(chain))
    ensures IsMaximal(store, start, resumedFrom, Reversed(chain))
    ensures forall d | IsWalk(store, start, resumedFrom, d) :: d <= Reversed(chain)
  {
    hide IsWalk, Nth, Reversed;
    chain := [];
    var seen := {start};
    var current := Parent(store, resumedFrom);
    EmptyWalk(store, start, resumedFrom);
    while current.Some?
      invariant IsWalk(store, start, resumedFrom, chain)
      invariant current == Parent(store, Nth(store, resumedFrom, |chain|))
      invariant forall id :: id in seen <==> id == start || id in chain
      decreases store.Keys - seen, if current.Some? then 1 else 0
    {
      if current.value in seen {
        break;
      }
      WalkOn(store, start, resumedFrom, chain, current.value);
      chain := chain + [current.value];
      seen := seen + {current.value};
      current := Parent(store, store[current.value].resumedFrom);
    }
    forall d | IsWalk(store, start, resumedFrom, d) ensures d <= chain {
      WalksAgree(store, start, resumedFrom, chain, d);
    }
    ReversedTwice(chain);
    chain := Reversed(chain);
  }

  lemma EmptyWalk(store: Store, start: string, resumedFrom: Option<string>)
    ensures IsWalk(store, start, resumedFrom, []) && Nth(store, resumedFrom, 0) == resumedFrom
  {}

  // ---- Pointers, step by step ---------------------------------------------------------------

  ghost predicate LeadsTo(store: Store, from: Option<string>, id: string) {
    exists n: nat :: Nth(store, from, n) == Some(id)
  }

  /** Some session is its own ancestor. */
  ghost predicate Circular(store: Store, id: string) {
    id in store && LeadsTo(store, store[id].resumedFrom, id)
  }

  ghost predicate Acyclic(store: Store) { forall id | id in store :: !Circular(store, id) }

  ghost predicate Closed(store: Store) {
    forall id | id in store && store[id].resumedFrom.Some? :: store[id].resumedFrom.value in store
  }

  lemma {:induction false} NthPlus(store: Store, from: Option<string>, m: nat, n: nat)
    ensures Nth(store, from, m + n) == Nth(store, Nth(store, from, m), n)
    decreases n
  {
    if n > 0 { NthPlus(store, from, m, n - 1); }
  }

  lemma NthNext(store: Store, id: string, n: nat)
    requires id in store
    ensures Nth(store, Some(id), n + 1) == Nth(store, store[id].resumedFrom, n)
  {
    NthPlus(store, Some(id), 1, n);
    assert Nth(store, Some(id), 0) == Some(id);
  }

  /** The new session is invisible to walks that do not come to it. */
  lemma {:induction false} NthSame(store: Store, id: string, s: SessionState, from: Option<string>, n: nat)
    requires id !in store && forall i: nat | i < n :: Nth(store, from, i) != Some(id)
    ensures Nth(store[id := s], from, n) == Nth(store, from, n)
    decreases n
  {
    if n > 0 { NthSame(store, id, s, from, n - 1); }
  }

  lemma {:induction false} FirstVisit(store: Store, from: Option<string>, id: string, n: nat) returns (m: nat)
    requires Nth(store, from, n) == Some(id)
    ensures m <= n && Nth(store, from, m) == Some(id) && forall i: nat | i < m :: Nth(store, from, i) != Some(id)
    decreases n
  {
    if i: nat :| i < n && Nth(store, from, i) == Some(id) {
      m := FirstVisit(store, from, id, i);
    } else {
      m := n;
    }
  }

  /** A new session can be reached afterwards only from where its id could be reached before. */
  lemma ReachedBefore(store: Store, id: string, s: SessionState, from: Option<string>)
    requires id !in store
    ensures LeadsTo(store[id := s], from, id) <==> LeadsTo(store, from, id)
  {
    if LeadsTo(store, from, id) {
      var n: nat :| Nth(store, from, n) == Some(id);
      var m := FirstVisit(store, from, id, n);
      NthSame(store, id, s, from, m);
    }
    if LeadsTo(store[id := s], from, id) {
      var n: nat :| Nth(store[id := s], from, n) == Some(id);
      if forall i: nat | i < n :: Nth(store, from, i) != Some(id) {
        NthSame(store, id, s, from, n);
      } else {
        var i: nat :| i < n && Nth(store, from, i) == Some(id);
      }
    }
  }

  lemma OldCircular(store: Store, id: string, s: SessionState, other: string)
    requires id !in store && other in store && Circular(store[id := s], other)
    ensures Circular(store, other) || Circular(store[id := s], id)
  {
    var t := store[id := s];
    var from := store[other].resumedFrom;
    var n: nat :| Nth(t, from, n) == Some(other);
    if LeadsTo(store, from, id) {
      ReachedBefore(store, id, s, from);
      var m: nat :| Nth(t, from, m) == Some(id);
      Around(t, other, n, m, id);
    } else {
      forall i: nat | i < n ensures Nth(store, from, i) != Some(id) {}
      NthSame(store, id, s, from, n);
      assert LeadsTo(store, from, other);
    }
  }

  /** Everything on the way from a session back to itself is on its circle. */
  lemma {:induction false} Around(store: Store, a: string, n: nat, m: nat, b: string)
    requires a in store && b in store
    requires Nth(store, store[a].resumedFrom, n) == Some(a) && Nth(store, store[a].resumedFrom, m) == Some(b)
    ensures Circular(store, b)
    decreases m
  {
    var from := store[a].resumedFrom;
    if m > n {
      // Shorten the way to b by one full turn.
      NthPlus(store, from, n, m - n);
      NthNext(store, a, m - n - 1);
      Around(store, a, n, m - n - 1, b);
    } else if m == n {
      assert LeadsTo(store, store[b].resumedFrom, b);
    } else {
      // From b on to a, and from a to b again.
      NthPlus(store, from, m, n - m);
      NthNext(store, b, n - m - 1);
      NthPlus(store, store[b].resumedFrom, n - m - 1, m + 1);
      NthNext(store, a, m);
      assert Nth(store, store[b].resumedFrom, n - m - 1 + m + 1) == Some(b);
    }
  }

  /** A new session closes a circle if and only if its parent's pointers already lead to its id. */
  lemma AddedAcyclic(store: Store, id: string, s: SessionState)
    requires Acyclic(store) && id !in store
    ensures Acyclic(store[id := s]) <==> !LeadsTo(store, s.resumedFrom, id)
  {
    hide LeadsTo;
    var t := store[id := s];
    ReachedBefore(store, id, s, s.resumedFrom);
    assert Circular(t, id) <==> LeadsTo(store, s.resumedFrom, id);
    if !Circular(t, id) {
      forall other | other in t ensures !Circular(t, other) {
        if other != id && Circular(t, other) { OldCircular(store, id, s, other); }
      }
    }
  }

  // ---- Runs of session creation -------------------------------------------------------------

  datatype Op =
    | Create(id: string, scenario: string, userId: Option<string>, resumedFrom: Option<string>)
    | Resume(id: string, parent: string, narrower: Option<string>, userId: Option<string>, allowUnfinished: bool)
    | Move(id: string, stage: Stage)

  /** `create_session`; an existing directory is an error. */
  function Created(store: Store, id: string, s: SessionState): Result<Store, Exn> {
    if id in store then Err(Sovereign("SA_IO_ATOMIC_WRITE_FAILED", "session directory already exists"))
    else Ok(store[id := s])
  }

  /** Python's `a or b` on optional text. */
  function OrText(a: Option<string>, b: Option<string>): Option<string> {
    if a.Some? && a.value != "" then a else b
  }

  function Resumed(store: Store, op: Op): Result<Store, Exn>
    requires op.Resume?
  {
    if op.parent !in store then Err(Sovereign("SA_IO_NOT_FOUND", "session not found"))
    else
      var parent := store[op.parent];
      if !Terminal(parent.stage) && !op.allowUnfinished then
        Err(Sovereign("SA_VAL_PARENT_UNFINISHED", "cannot resume: parent state is not terminal"))
      else
        var scenario := OrText(op.narrower, Some(parent.scenario)).value;
        Created(store, op.id, SessionState(scenario, Planning, OrText(op.userId, parent.userId), Some(op.parent)))
  }

  predicate Finished(stage: Stage) { stage == Completed || stage == Failed || stage == Escalated }

  /** The text given, if any was; otherwise the parent's. */
  predicate Chosen(given: Option<string>, inherited: Option<string>, r: Option<string>) {
    if given == None || given == Some("") then r == inherited else r == given
  }

  /** When resuming is refused and as what, and what the new session is. */
  lemma ResumedTells(store: Store, op: Op)
    requires op.Resume?
    ensures var r := Resumed(store, op);
      if op.parent !in store then r.Err? && r.error.Sovereign? && r.error.code == "SA_IO_NOT_FOUND"
      else if !op.allowUnfinished && !Finished(store[op.parent].stage) then
        r.Err? && r.error.Sovereign? && r.error.code == "SA_VAL_PARENT_UNFINISHED"
      else if op.id in store then r.Err? && r.error.Sovereign? && r.error.code == "SA_IO_ATOMIC_WRITE_FAILED"
      else
        && r.Ok? && op.id in r.value && r.value == store[op.id := r.value[op.id]]
        && var child, parent := r.value[op.id], store[op.parent];
           && child.stage == Planning && child.resumedFrom == Some(op.parent)
           && Chosen(op.narrower, Some(parent.scenario), Some(child.scenario))
           && Chosen(op.userId, parent.userId, child.userId)
  {}

  /** An operation that raises changes nothing; a session's stage may change at any time. */
  function Do(store: Store, op: Op): Store {
    match op
    case Create(id, scenario, userId, resumedFrom) =>
      var r := Created(store, id, SessionState(scenario, Planning, userId, resumedFrom));
      if r.Ok? then r.value else store
    case Resume(_, _, _, _, _) =>
      var r := Resumed(store, op);
      if r.Ok? then r.value else store
    case Move(id, stage) => if id in store then store[id := store[id].(stage := stage)] else store
  }

  function DoAll(ops: seq<Op>): Store {
    if ops == [] then map[] else Do(DoAll(ops[..|ops| - 1]), ops[|ops| - 1])
  }

  predicate Plain(op: Op) { op.Create? ==> op.resumedFrom.None? }

  lemma {:induction false} ClosedWalk(store: Store, from: Option<string>, n: nat)
    requires Closed(store) && (from.Some? ==> from.value in store)
    ensures Nth(store, from, n).Some? ==> Nth(store, from, n).value in store
    decreases n
  {
    if n > 0 { ClosedWalk(store, from, n - 1); }
  }

  /** A pointer to a session that exists, or none, cannot close a circle. */
  lemma PlainAdd(store: Store, id: string, s: SessionState)
    requires Acyclic(store) && Closed(store) && id !in store
    requires s.resumedFrom.Some? ==> s.resumedFrom.value in store
    ensures Acyclic(store[id := s]) && Closed(store[id := s])
  {
    if LeadsTo(store, s.resumedFrom, id) {
      var n: nat :| Nth(store, s.resumedFrom, n) == Some(id);
      ClosedWalk(store, s.resumedFrom, n);
    }
    AddedAcyclic(store, id, s);
  }

  lemma {:induction false} SamePointers(store: Store, t: Store, from: Option<string>, n: nat)
    requires t.Keys == store.Keys && forall id | id in store :: t[id].resumedFrom == store[id].resumedFrom
    ensures Nth(t, from, n) == Nth(store, from, n)
    decreases n
  {
    if n > 0 { SamePointers(store, t, from, n - 1); }
  }

  lemma MovedAcyclic(store: Store, id: string, stage: Stage)
    requires Acyclic(store) && Closed(store) && id in store
    ensures var t := store[id := store[id].(stage := stage)]; Acyclic(t) && Closed(t)
  {
    var t := store[id := store[id].(stage := stage)];
    forall other | other in t ensures Circular(t, other) ==> Circular(store, other) {
      if Circular(t, other) {
        var n: nat :| Nth(t, t[other].resumedFrom, n) == Some(other);
        SamePointers(store, t, t[other].resumedFrom, n);
        assert LeadsTo(store, store[other].resumedFrom, other);
      }
    }
  }

  lemma StepAcyclic(store: Store, op: Op)
    requires Acyclic(store) && Closed(store) && Plain(op)
    ensures Acyclic(Do(store, op)) && Closed(Do(store, op))
  {
    hide Acyclic, Closed;
    match op
    case Create(id, scenario, userId, resumedFrom) =>
      if id !in store { PlainAdd(store, id, SessionState(scenario, Planning, userId, resumedFrom)); }
    case Resume(id, _, _, _, _) =>
      var r := Resumed(store, op);
      if r.Ok? { PlainAdd(store, id, r.value[id]); }
    case Move(id, stage) =>
      if id in store { MovedAcyclic(store, id, stage); }
  }

  /** Plain creations and resumptions, in any order, never make a circle or a dangling pointer. */
  lemma {:induction false} RunsAcyclic(ops: seq<Op>)
    requires forall i | 0 <= i < |ops| :: Plain(ops[i])
    ensures Acyclic(DoAll(ops)) && Closed(DoAll(ops))
    decreases |ops|
  {
    hide Acyclic, Closed, Do, Plain;
    if ops == [] {
      NothingAcyclic();
    } else {
      RunsAcyclic(ops[..|ops| - 1]);
      StepAcyclic(DoAll(ops[..|ops| - 1]), ops[|ops| - 1]);
    }
  }

  lemma NothingAcyclic()
    ensures Acyclic(map[]) && Closed(map[])
  {}

  /** After any run of plain creations and resumptions the walk from a session ends at a session
      that resumed from nothing, and it misses no ancestor. */
  lemma WalkReachesRoot(ops: seq<Op>, id: string, c: seq<string>)
    requires forall i | 0 <= i < |ops| :: Plain(ops[i])
    requires id in DoAll(ops)
    requires var store := DoAll(ops);
      IsWalk(store, id, store[id].resumedFrom, c) && IsMaximal(store, id, store[id].resumedFrom, c)
    ensures var store := DoAll(ops);
      var last := if c == [] then id else c[|c| - 1];
      last in store && store[last].resumedFrom == None
    ensures forall a :: LeadsTo(DoAll(ops), DoAll(ops)[id].resumedFrom, a) ==> a in c
  {
    hide DoAll;
    RunsAcyclic(ops);
    RootOf(DoAll(ops), id, c);
  }

  lemma BackInWalk(store: Store, id: string, c: seq<string>)
    requires id in store && IsWalk(store, id, store[id].resumedFrom, c) && IsMaximal(store, id, store[id].resumedFrom, c)
    requires Nth(store, store[id].resumedFrom, |c|).Some? && Nth(store, store[id].resumedFrom, |c|).value in store
    ensures !Acyclic(store)
  {
    hide Nth;
    var from, n := store[id].resumedFrom, |c|;
    var next := Nth(store, from, n).value;
    if next == id {
      assert Circular(store, id);
    } else {
      var i :| 0 <= i < n && c[i] == next;
      NthPlus(store, from, i, n - i);
      NthNext(store, c[i], n - i - 1);
      assert Circular(store, c[i]);
    }
  }

  lemma RootLast(store: Store, id: string, c: seq<string>)
    requires id in store && IsWalk(store, id, store[id].resumedFrom, c) && Nth(store, store[id].resumedFrom, |c|).None?
    ensures var last := if c == [] then id else c[|c| - 1];
      last in store && store[last].resumedFrom == None
  {}

  lemma RootOf(store: Store, id: string, c: seq<string>)
    requires Acyclic(store) && Closed(store) && id in store
    requires IsWalk(store, id, store[id].resumedFrom, c) && IsMaximal(store, id, store[id].resumedFrom, c)
    ensures var last := if c == [] then id else c[|c| - 1];
      last in store && store[last].resumedFrom == None
    ensures forall a :: LeadsTo(store, store[id].resumedFrom, a) ==> a in c
  {
    hide Nth, Acyclic;
    var from, n := store[id].resumedFrom, |c|;
    ClosedWalk(store, from, n);
    assert Nth(store, from, n).None? by {
      if Nth(store, from, n).Some? { BackInWalk(store, id, c); }
    }
    RootLast(store, id, c);
    forall a | LeadsTo(store, from, a) ensures a in c {
      var m: nat :| Nth(store, from, m) == Some(a);
      if m >= n { AfterRoot(store, from, n, m); }
    }
  }

  lemma {:induction false} AfterRoot(store: Store, from: Option<string>, n: nat, m: nat)
    requires Nth(store, from, n) == None && n <= m
    ensures Nth(store, from, m) == None
    decreases m
  {
    if m > n { AfterRoot(store, from, n, m - 1); }
  }

  /** `create_session` takes a parent that does not exist yet, and then a circle can be made: the
      later session resumes from the one that was waiting for it. */
  lemma DanglingMakesCircle(a: string, b: string)
    requires a != b
    ensures var ops := [Create(a, "s", None, Some(b)), Resume(b, a, None, None, true)];
      !Acyclic(DoAll(ops))
  {
    var op1, op2 := Create(a, "s", None, Some(b)), Resume(b, a, None, None, true);
    var ops := [op1, op2];
    assert ops[..1] == [op1] && [op1][..0] == [];
    assert DoAll([op1]) == Do(DoAll([]), op1);
    var store := DoAll([op1]);
    assert store == Do(map[], op1) && DoAll(ops) == Do(store, op2);
    assert Nth(store, Some(a), 0) == Some(a);
    assert Nth(store, Some(a), 1) == Some(b);
    assert LeadsTo(store, Some(a), b);
    var t := DoAll(ops);
    assert t == store[b := t[b]] && t[b].resumedFrom == Some(a);
    ReachedBefore(store, b, t[b], Some(a));
    assert Circular(t, b);
  }

  // ---- The directory as it is ---------------------------------------------------------------

  class SessionDirectory {
    var sessions: Store

    constructor ()
      ensures sessions == DoAll([])
    {
      sessions := map[];
    }

    method CreateSession(id: string, scenario: string, userId: Option<string>, resumedFrom: Option<string>)
        returns (r: Result<SessionState, Exn>)
      modifies this
      ensures sessions == Do(old(sessions), Create(id, scenario, userId, resumedFrom))
      ensures r.Ok? <==> id !in old(sessions)
      ensures r.Ok? ==> r.value == SessionState(scenario, Planning, userId, resumedFrom)
      ensures r.Err? ==> r == Err(Sovereign("SA_IO_ATOMIC_WRITE_FAILED", "session directory already exists"))
    {
      if id in sessions {
        return Err(Sovereign("SA_IO_ATOMIC_WRITE_FAILED", "session directory already exists"));
      }
      var state := SessionState(scenario, Planning, userId, resumedFrom);
      sessions := sessions[id := state];
      return Ok(state);
    }

    method LoadSession(id: string) returns (r: Result<SessionState, Exn>)
      ensures r == if id in sessions then Ok(sessions[id]) else Err(Sovereign("SA_IO_NOT_FOUND", "session not found"))
    {
      return if id in sessions then Ok(sessions[id]) else Err(Sovereign("SA_IO_NOT_FOUND", "session not found"));
    }

    method ResumeSession(
        id: string, parentId: string, scenario: Option<string>, userId: Option<string>, allowUnfinished: bool)
        returns (r: Result<SessionState, Exn>)
      modifies this
      ensures var op := Resume(id, parentId, scenario, userId, allowUnfinished);
        && sessions == Do(old(sessions), op)
        && (r.Ok? <==> Resumed(old(sessions), op).Ok?)
        && (r.Err? ==> r.error == Resumed(old(sessions), op).error)
      ensures r.Ok? <==>
        parentId in old(sessions) && id !in old(sessions) && (allowUnfinished || Finished(old(sessions)[parentId].stage))
      ensures r.Ok? ==> id in sessions && sessions[id] == r.value && r.value.resumedFrom == Some(parentId)
    {
      var loaded := LoadSession(parentId);
      if loaded.Err? {
        return Err(loaded.error);
      }
      var parent := loaded.value;
      if !Terminal(parent.stage) && !allowUnfinished {
        return Err(Sovereign("SA_VAL_PARENT_UNFINISHED", "cannot resume: parent state is not terminal"));
      }
      var resolved := OrText(scenario, Some(parent.scenario)).value;
      r := CreateSession(id, resolved, OrText(userId, parent.userId), Some(parentId));
    }
  }
}
