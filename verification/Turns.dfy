/** Turn reservations and the steering inbox (internal/agent/turns.go): the shared state behind
    turns.mu, one function per critical section, and the class whose methods are those sections. */
module Turns {
  import opened Optional

  datatype Address = Address(channel: string, account: string, chat: string)

  datatype TurnState = Idle | Starting | Running | Finishing | Stopping

  datatype SteerResult = SteerResult(buffered: bool, state: TurnState)

  /** One reservation. `cancelled` is whether its context is done, `done` whether its channel is closed. */
  datatype Turn = Turn(address: Address, project: string, state: TurnState, cancelled: bool, done: bool,
                       steer: seq<string>, session: Option<string>)

  /** Every reservation ever made, and which one holds each address. */
  datatype Core = Core(active: map<Address, nat>, turns: seq<Turn>)

  predicate Wired(c: Core) {
    forall a :: a in c.active ==> c.active[a] < |c.turns|
  }

  function Seen(t: Turn): TurnState {
    if t.cancelled && t.state != Finishing then Stopping else t.state
  }

  function Touch(t: Turn): Turn {
    t.(state := Seen(t))
  }

  function Holder(c: Core, key: Address): Option<nat> {
    if key in c.active then Some(c.active[key]) else None
  }

  /** A new reservation; its context is derived from the caller's and is born cancelled if that one is done. */
  function Reserve(c: Core, key: Address, project: string, ctxDone: bool): Core {
    Core(c.active[key := |c.turns|], c.turns + [Turn(key, project, Starting, ctxDone, false, [], None)])
  }

  function Bound(t: Turn, session: string): Turn {
    t.(session := Some(session), state := if t.state == Starting then Running else t.state)
  }

  function Pushed(t: Turn, msg: string): (Turn, SteerResult) {
    var u := Touch(t);
    if u.state == Starting || u.state == Running then (u.(steer := u.steer + [msg]), SteerResult(true, u.state))
    else (u, SteerResult(false, u.state))
  }

  function Drained(t: Turn, finishIfEmpty: bool): Turn {
    var u := if finishIfEmpty && t.steer == [] then Touch(t) else t;
    u.(steer := [], state := if finishIfEmpty && t.steer == [] && u.state != Stopping then Finishing else u.state)
  }

  function Closing(t: Turn): Turn {
    t.(steer := [], state := if Seen(t) != Stopping then Finishing else Stopping)
  }

  function Stopped(t: Turn): Turn {
    t.(state := Stopping, cancelled := true)
  }

  function With(c: Core, i: nat, t: Turn): Core
    requires i < |c.turns|
  {
    c.(turns := c.turns[i := t])
  }

  function Released(c: Core, i: nat): Core
    requires i < |c.turns|
  {
    Core(c.active - {c.turns[i].address}, c.turns[i := c.turns[i].(done := true)])
  }

  // ---------------------------------------------------------------- the critical sections

  class ActiveTurn {
    ghost const id: nat
    const address: Address
    const project: string
    var state: TurnState
    var cancelled: bool
    var done: bool
    var steer: seq<string>
    var session: Option<string>

    constructor (ghost id: nat, address: Address, project: string, ctxDone: bool)
      ensures this.id == id && Rec() == Turn(address, project, Starting, ctxDone, false, [], None)
    {
      this.id, this.address, this.project := id, address, project;
      state, cancelled, done, steer, session := Starting, ctxDone, false, [], None;
    }

    function Rec(): Turn
      reads this
    {
      Turn(address, project, state, cancelled, done, steer, session)
    }

    method StateLocked() returns (s: TurnState)
      modifies this`state
      ensures Rec() == Touch(old(Rec())) && s == state
    {
      if cancelled && state != Finishing {
        state := Stopping;
      }
      return state;
    }
  }

  class TurnControl {
    var active: map<Address, ActiveTurn>
    ghost var turns: seq<ActiveTurn>

    ghost predicate Valid()
      reads this, turns
    {
      && (forall i :: 0 <= i < |turns| ==> turns[i].id == i)
      && (forall a :: a in active ==> active[a].id < |turns| && turns[active[a].id] == active[a])
    }

    ghost function View(): Core
      reads this, turns
    {
      Core(map a | a in active :: active[a].id,
           seq(|turns|, i requires 0 <= i < |turns| reads this, turns => turns[i].Rec()))
    }

    constructor ()
      ensures Valid() && View() == Core(map[], [])
    {
      active, turns := map[], [];
      new;
      assert View().turns == [];
    }

    /** Is this reservation still the one holding its address? (the nested-acquire check) */
    method StillReserved(t: ActiveTurn) returns (reserved: bool)
      requires Valid() && t in turns
      ensures reserved <==> Holder(View(), t.address) == Some(t.id)
    {
      reserved := t.address in active && active[t.address] == t;
    }

    /** The slot check: reserves a free address, or names the turn to wait for. */
    method TrySlot(key: Address, project: string, ctxDone: bool) returns (mine: bool, turn: ActiveTurn)
      requires Valid()
      modifies this
      ensures Valid()
      ensures mine <==> Holder(old(View()), key) == None
      ensures if mine then fresh(turn) && View() == Reserve(old(View()), key, project, ctxDone) && Holder(View(), key) == Some(turn.id)
              else View() == old(View()) && Holder(View(), key) == Some(turn.id)
    {
      if key in active {
        return false, active[key];
      }
      ghost var before := View();
      turn := new ActiveTurn(|turns|, key, project, ctxDone);
      active := active[key := turn];
      turns := turns + [turn];
      mine := true;
      assert View().turns == before.turns + [turn.Rec()];
      assert View().active == before.active[key := turn.id];
    }

    method BindTurnSession(t: ActiveTurn, session: string)
      requires Valid() && t in turns
      modifies t
      ensures Valid() && View() == With(old(View()), t.id, Bound(old(t.Rec()), session))
    {
      t.session := Some(session);
      if t.state == Starting {
        t.state := Running;
      }
      assert View().turns == old(View()).turns[t.id := t.Rec()];
    }

    method PushTurnSteer(key: Address, msg: string) returns (r: SteerResult)
      requires Valid()
      modifies if key in active then {active[key]} else {}
      ensures Valid()
      ensures match Holder(old(View()), key)
              case None => View() == old(View()) && r == SteerResult(false, Idle)
              case Some(i) =>
                && i < |old(View()).turns|
                && View() == With(old(View()), i, Pushed(old(View()).turns[i], msg).0)
                && r == Pushed(old(View()).turns[i], msg).1
    {
      if key !in active {
        return SteerResult(false, Idle);
      }
      var turn := active[key];
      var state := turn.StateLocked();
      if state != Starting && state != Running {
        r := SteerResult(false, state);
      } else {
        turn.steer := turn.steer + [msg];
        r := SteerResult(true, state);
      }
      assert View().turns == old(View()).turns[turn.id := turn.Rec()];
    }

    method DrainTurnSteer(t: ActiveTurn, finishIfEmpty: bool) returns (steer: seq<string>)
      requires Valid() && t in turns
      modifies t
      ensures Valid() && steer == old(t.steer)
      ensures View() == With(old(View()), t.id, Drained(old(t.Rec()), finishIfEmpty))
    {
      steer := t.steer;
      t.steer := [];
      if finishIfEmpty && |steer| == 0 {
        var state := t.StateLocked();
        if state != Stopping {
          t.state := Finishing;
        }
      }
      assert View().turns == old(View()).turns[t.id := t.Rec()];
    }

    /** First half of finishTurn: closes intake and takes what was accepted but never used. */
    method CloseIntake(t: ActiveTurn) returns (leftover: seq<string>, session: Option<string>)
      requires Valid() && t in turns
      modifies t
      ensures Valid() && leftover == old(t.steer) && session == old(t.session)
      ensures View() == With(old(View()), t.id, Closing(old(t.Rec())))
    {
      var state := t.StateLocked();
      if state != Stopping {
        t.state := Finishing;
      }
      leftover, session := t.steer, t.session;
      t.steer := [];
      assert View().turns == old(View()).turns[t.id := t.Rec()];
    }

    /** Last critical section of finishTurn: frees the address and wakes every waiter. */
    method ReleaseSlot(t: ActiveTurn)
      requires Valid() && t in turns
      modifies this`active, t
      ensures Valid() && View() == Released(old(View()), t.id)
    {
      active := active - {t.address};
      t.done := true;
      assert View().turns == old(View()).turns[t.id := t.Rec()];
      assert View().active == old(View()).active - {t.address};
    }

    method StopWebTurn(key: Address) returns (found: bool)
      requires Valid()
      modifies if key in active then {active[key]} else {}
      ensures Valid()
      ensures match Holder(old(View()), key)
              case None => !found && View() == old(View())
              case Some(i) =>
                && found && i < |old(View()).turns|
                && View() == With(old(View()), i, Stopped(old(View()).turns[i]))
    {
      if key !in active {
        return false;
      }
      var turn := active[key];
      turn.state := Stopping;
      turn.cancelled := true;
      assert View().turns == old(View()).turns[turn.id := turn.Rec()];
      return true;
    }

    method WebTurnState(key: Address) returns (s: TurnState)
      requires Valid()
      modifies if key in active then {active[key]} else {}
      ensures Valid()
      ensures match Holder(old(View()), key)
              case None => s == Idle && View() == old(View())
              case Some(i) =>
                && i < |old(View()).turns|
                && s == Seen(old(View()).turns[i]) && View() == With(old(View()), i, Touch(old(View()).turns[i]))
    {
      if key !in active {
        return Idle;
      }
      var turn := active[key];
      s := turn.StateLocked();
      assert View().turns == old(View()).turns[turn.id := turn.Rec()];
    }
  }
}
