/** A player's wallet: cash, holdings per stonk and the pending action slot
    (src/agent.rs). */
module Agent {
  import opened Common
  import opened Stonk

  const INITIAL_USER_CASH: nat := 10000
  /** `vec![0].repeat(8)`: one holding per stonk of the market. */
  const NUMBER_OF_HOLDINGS: nat := 8

  /** Every action the market applies; `Buy` and `Sell` come from agent.rs,
      the others are the variants market.rs and events.rs use. */
  datatype AgentAction =
    | Buy(stonkId: nat, amount: nat)
    | Sell(stonkId: nat, amount: nat)
    | BumpStonkClass(stonkClass: StonkClass)
    | CrashAll
    | AddCash(amount: nat)
    | AcceptBribe
    | OneDayUltraVision
    | CrashAgentStonks(username: string)

  class UserAgent {
    const username: string
    var cash: nat
    var ownedStonks: seq<nat>
    var lastActions: seq<AgentAction>
    var pendingAction: Option<AgentAction>

    /** One `u32` holding per stonk. */
    ghost predicate Valid()
      reads this
    {
      |ownedStonks| == NUMBER_OF_HOLDINGS &&
      forall i :: 0 <= i < |ownedStonks| ==> ownedStonks[i] <= U32_MAX
    }

    /** `UserAgent::new`: $10,000 in cents, nothing held, nothing pending. */
    constructor (username: string)
      ensures Valid()
      ensures this.username == username
      ensures cash == INITIAL_USER_CASH * 100
      ensures ownedStonks == [0, 0, 0, 0, 0, 0, 0, 0]
      ensures lastActions == [] && pendingAction == None
    {
      this.username := username;
      cash := INITIAL_USER_CASH * 100;
      ownedStonks := [0, 0, 0, 0, 0, 0, 0, 0];
      lastActions := [];
      pendingAction := None;
    }

    /** `add_cash`: returns the new balance. */
    method AddCash(amount: nat) returns (r: Result<nat>)
      modifies this`cash
      ensures cash == old(cash) + amount
      ensures r == Success(cash)
    {
      cash := cash + amount;
      return Success(cash);
    }

    /** `sub_cash`: fails, changing nothing, when the balance is too small. */
    method SubCash(amount: nat) returns (r: Result<nat>)
      modifies this`cash
      ensures r.Failure? <==> old(cash) < amount
      ensures r.Failure? ==> cash == old(cash)
      ensures r.Success? ==> cash == old(cash) - amount && r.value == cash
    {
      if cash < amount {
        return Failure("Underflow");
      }
      cash := cash - amount;
      return Success(cash);
    }

    /** `add_stonk`: a checked `u32` addition on one holding. */
    method AddStonk(stonkId: nat, amount: nat) returns (r: Result<seq<nat>>)
      requires Valid() && stonkId < |ownedStonks|
      modifies this`ownedStonks
      ensures Valid()
      ensures r.Failure? <==> old(ownedStonks[stonkId]) + amount > U32_MAX
      ensures r.Failure? ==> ownedStonks == old(ownedStonks)
      ensures r.Success? ==> ownedStonks == old(ownedStonks)[stonkId := old(ownedStonks[stonkId]) + amount]
      ensures r.Success? ==> r.value == ownedStonks
    {
      var owned := ownedStonks[stonkId];
      if owned + amount > U32_MAX {
        return Failure("Overflow");
      }
      ownedStonks := ownedStonks[stonkId := owned + amount];
      return Success(ownedStonks);
    }

    /** `sub_stonk`: a checked `u32` subtraction on one holding. */
    method SubStonk(stonkId: nat, amount: nat) returns (r: Result<seq<nat>>)
      requires Valid() && stonkId < |ownedStonks|
      modifies this`ownedStonks
      ensures Valid()
      ensures r.Failure? <==> old(ownedStonks[stonkId]) < amount
      ensures r.Failure? ==> ownedStonks == old(ownedStonks)
      ensures r.Success? ==> ownedStonks == old(ownedStonks)[stonkId := old(ownedStonks[stonkId]) - amount]
      ensures r.Success? ==> r.value == ownedStonks
    {
      var owned := ownedStonks[stonkId];
      if owned < amount {
        return Failure("Underflow");
      }
      ownedStonks := ownedStonks[stonkId := owned - amount];
      return Success(ownedStonks);
    }

    /** `select_action`: the action waits in the pending slot. */
    method SelectAction(action: AgentAction)
      modifies this`pendingAction
      ensures pendingAction == Some(action)
    {
      pendingAction := Some(action);
    }

    /** `selected_action`: reads the pending slot and changes nothing. */
    method SelectedAction() returns (r: Option<AgentAction>)
      ensures r == pendingAction
    {
      r := pendingAction;
    }

    /** `clear_action`: a pending action moves to `last_actions`; the slot
        ends empty, so a second call changes nothing. */
    method ClearAction()
      modifies this`lastActions, this`pendingAction
      ensures pendingAction == None
      ensures lastActions == old(lastActions) + (if old(pendingAction).Some? then [old(pendingAction).value] else [])
    {
      if pendingAction.Some? {
        lastActions := lastActions + [pendingAction.value];
      }
      pendingAction := None;
    }
  }
}
