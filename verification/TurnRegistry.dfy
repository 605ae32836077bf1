/** The table of in-flight turns: one per session, cancelled at most once. */
module TurnRegistry {
  import opened Prelude

  /** `cancel` names the context whose cancel function the entry holds. */
  datatype Turn = Turn(turnId: string, cancel: nat, cancelled: bool)

  type Table = map<string, Turn>

  function Begin(turns: Table, session: string, turnId: string, cancel: nat): (Table, bool)
  {
    if session in turns then (turns, false) else (turns[session := Turn(turnId, cancel, false)], true)
  }

  /** Clears the session's entry, but only if it is this turn's. */
  function End(turns: Table, session: string, turnId: string): Table
  {
    if session in turns && turns[session].turnId == turnId then turns - {session} else turns
  }

  /** Marks the session's turn cancelled; the answer names the context to cancel, if any. */
  function Cancel(turns: Table, session: string): (Table, Option<nat>)
  {
    if session !in turns || turns[session].cancelled then (turns, None)
    else (turns[session := turns[session].(cancelled := true)], Some(turns[session].cancel))
  }

  /** What a turn registers only that turn can clear: its own End restores the table, a late End of
      another turn leaves it alone. */
  lemma OnlyItsOwnEnd(turns: Table, session: string, turnId: string, cancel: nat, other: string)
    requires Begin(turns, session, turnId, cancel).1
    ensures var begun := Begin(turns, session, turnId, cancel).0;
            End(begun, session, other) == if other == turnId then turns else begun
  {
    var begun := Begin(turns, session, turnId, cancel).0;
    assert begun - {session} == turns;
  }

  class Registry {
    var turns: Table
    var fired: seq<nat>  // the cancel functions called so far

    constructor ()
      ensures turns == map[] && fired == []
    {
      turns, fired := map[], [];
    }

    method BeginTurn(session: string, turnId: string, cancel: nat) returns (ok: bool)
      modifies this`turns
      ensures (turns, ok) == Begin(old(turns), session, turnId, cancel)
    {
      if session in turns {
        return false;
      }
      turns := turns[session := Turn(turnId, cancel, false)];
      ok := true;
    }

    method EndTurn(session: string, turnId: string)
      modifies this`turns
      ensures turns == End(old(turns), session, turnId)
    {
      if session in turns && turns[session].turnId == turnId {
        turns := turns - {session};
      }
    }

    method CancelTurn(session: string) returns (hit: bool)
      modifies this
      ensures var r := Cancel(old(turns), session);
        && turns == r.0 && hit == r.1.Some?
        && fired == old(fired) + (if r.1.Some? then [r.1.value] else [])
    {
      if session !in turns || turns[session].cancelled {
        return false;
      }
      var t := turns[session];
      turns := turns[session := t.(cancelled := true)];
      // the lock is released before the cancel function runs
      fired := fired + [t.cancel];
      hit := true;
    }

    method TurnId(session: string) returns (turnId: Option<string>)
      ensures turnId == if session in turns then Some(turns[session].turnId) else None
    {
      turnId := None;
      if session in turns {
        turnId := Some(turns[session].turnId);
      }
    }

    method Inflight() returns (n: nat)
      ensures n == |turns|
    {
      n := |turns|;
    }
  }
}
