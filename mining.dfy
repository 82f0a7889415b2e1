/**
 * The tap-to-mine state machine of the mining dashboard.
 *
 * The dashboard keeps six pieces of state: the taps remaining, the tap
 * capacity, the SHROUK and TON earned so far, the value of one tap and the
 * time of the last accepted tap. A tap is refused during a one-second
 * cooldown and when no taps remain; otherwise it uses one tap and credits
 * either TON (a tenth of the tap value) or SHROUK (the tap value), chosen by
 * a random draw. Refill and capacity upgrade are free.
 *
 * The clock reading and the random draw are parameters.
 */
module Mining {

  /** Initial capacity, and the initial number of taps remaining. */
  const InitialTaps: int := 1000
  /** Initial value credited by one tap. */
  const InitialTapValue: real := 0.001
  /** Minimum time, in milliseconds, between two accepted taps. */
  const CooldownMs: int := 1000
  /** Taps added to both the capacity and the remaining taps by one upgrade. */
  const CapacityStep: int := 500
  /** A draw above this threshold pays TON rather than SHROUK. */
  const TonThreshold: real := 0.7
  /** Fraction of the tap value paid when a tap pays TON. */
  const TonShare: real := 0.1

  /** A snapshot of the dashboard's state. */
  datatype Miner = Miner(
    tapsRemaining: int,
    maxTaps: int,
    shroukEarned: real,
    tonEarned: real,
    tapValue: real,
    lastTapTime: int)

  /** What a tap did: refused (and why) or which currency it credited. */
  datatype TapOutcome =
    | CoolingDown
    | NoTapsRemaining
    | EarnedTon(ton: real)
    | EarnedShrouk(shrouk: real)
  {
    predicate Accepted() {
      EarnedTon? || EarnedShrouk?
    }
  }

  datatype TapResult = TapResult(miner: Miner, outcome: TapOutcome)

  /** The capacity invariant: remaining taps lie between 0 and the capacity. */
  predicate CapacityOk(m: Miner) {
    0 <= m.tapsRemaining <= m.maxTaps
  }

  /** Neither balance is lower in `m'` than in `m`. */
  predicate EarningsKept(m: Miner, m': Miner) {
    m.shroukEarned <= m'.shroukEarned && m.tonEarned <= m'.tonEarned
  }

  /** The state on mount: a full capacity of 1000 taps, nothing earned. */
  function Initial(): (m: Miner)
    ensures CapacityOk(m) && m.tapsRemaining == m.maxTaps == InitialTaps
    ensures m.shroukEarned == 0.0 && m.tonEarned == 0.0
    ensures m.tapValue == InitialTapValue && m.lastTapTime == 0
  {
    Miner(InitialTaps, InitialTaps, 0.0, 0.0, InitialTapValue, 0)
  }

  /**
   * One tap at time `now` with random draw `roll`: the cooldown guard, then
   * the empty-capacity guard, then use one tap and credit one currency.
   */
  function Tap(m: Miner, now: int, roll: real): (r: TapResult)
    // The guards, in the source's order: cooldown first.
    ensures now - m.lastTapTime < CooldownMs <==> r.outcome == CoolingDown
    ensures now - m.lastTapTime >= CooldownMs && m.tapsRemaining <= 0 <==> r.outcome == NoTapsRemaining
    // A refused tap changes nothing: no counter, no balance, no timestamp.
    ensures !r.outcome.Accepted() ==> r.miner == m
    // An accepted tap uses exactly one tap and restarts the cooldown.
    ensures r.outcome.Accepted() ==>
      && r.miner.tapsRemaining == m.tapsRemaining - 1
      && r.miner.lastTapTime == now
      && r.miner.maxTaps == m.maxTaps
      && r.miner.tapValue == m.tapValue
    // It credits exactly one currency, chosen by the draw; the other is untouched.
    ensures r.outcome.EarnedTon? <==> r.outcome.Accepted() && roll > TonThreshold
    ensures r.outcome.EarnedTon? ==>
      && r.outcome.ton == m.tapValue * TonShare
      && r.miner.tonEarned == m.tonEarned + r.outcome.ton
      && r.miner.shroukEarned == m.shroukEarned
    ensures r.outcome.EarnedShrouk? ==>
      && r.outcome.shrouk == m.tapValue
      && r.miner.shroukEarned == m.shroukEarned + r.outcome.shrouk
      && r.miner.tonEarned == m.tonEarned
    ensures CapacityOk(m) ==> CapacityOk(r.miner)
    ensures m.tapValue >= 0.0 ==> EarningsKept(m, r.miner)
  {
    if now - m.lastTapTime < CooldownMs then
      TapResult(m, CoolingDown)
    else if m.tapsRemaining <= 0 then
      TapResult(m, NoTapsRemaining)
    else
      var used := m.(tapsRemaining := m.tapsRemaining - 1, lastTapTime := now);
      if roll > TonThreshold then
        var ton := m.tapValue * TonShare;
        TapResult(used.(tonEarned := m.tonEarned + ton), EarnedTon(ton))
      else
        TapResult(used.(shroukEarned := m.shroukEarned + m.tapValue), EarnedShrouk(m.tapValue))
  }

  /** Free refill: the remaining taps become the capacity. */
  function Refill(m: Miner): (r: Miner)
    ensures r.tapsRemaining == r.maxTaps == m.maxTaps
    ensures r == m.(tapsRemaining := r.tapsRemaining)
    ensures m.maxTaps >= 0 ==> CapacityOk(r)
  {
    m.(tapsRemaining := m.maxTaps)
  }

  /** Free capacity upgrade: 500 more taps of capacity, all of them available. */
  function UpgradeCapacity(m: Miner): (r: Miner)
    ensures r.maxTaps == m.maxTaps + CapacityStep
    ensures r.maxTaps - r.tapsRemaining == m.maxTaps - m.tapsRemaining
    ensures r == m.(tapsRemaining := r.tapsRemaining, maxTaps := r.maxTaps)
    ensures CapacityOk(m) ==> CapacityOk(r)
  {
    m.(maxTaps := m.maxTaps + CapacityStep, tapsRemaining := m.tapsRemaining + CapacityStep)
  }

  lemma RefillIdempotent(m: Miner)
    ensures Refill(Refill(m)) == Refill(m)
  {
  }

  /**
   * Once a tap at `t1` is accepted, any tap less than a second later is
   * refused by the cooldown, whatever the draw.
   */
  lemma CooldownAfterAcceptedTap(m: Miner, t1: int, roll1: real, t2: int, roll2: real)
    requires Tap(m, t1, roll1).outcome.Accepted()
    requires t2 - t1 < CooldownMs
    ensures Tap(Tap(m, t1, roll1).miner, t2, roll2) == TapResult(Tap(m, t1, roll1).miner, CoolingDown)
  {
  }

  /** The user actions on the dashboard. */
  datatype Action = TapAt(now: int, roll: real) | RefillTaps | UpgradeTapCapacity

  function Step(m: Miner, a: Action): Miner {
    match a
    case TapAt(now, roll) => Tap(m, now, roll).miner
    case RefillTaps => Refill(m)
    case UpgradeTapCapacity => UpgradeCapacity(m)
  }

  /** The state after a sequence of actions, first action first. */
  function Run(m: Miner, actions: seq<Action>): Miner
    decreases |actions|
  {
    if actions == [] then m else Run(Step(m, actions[0]), actions[1..])
  }

  /** No sequence of actions breaks the capacity invariant. */
  lemma {:induction false} RunKeepsCapacity(m: Miner, actions: seq<Action>)
    requires CapacityOk(m)
    ensures CapacityOk(Run(m, actions))
    decreases |actions|
  {
    if actions != [] {
      RunKeepsCapacity(Step(m, actions[0]), actions[1..]);
    }
  }

  /** No action changes the tap value. */
  lemma {:induction false} RunKeepsTapValue(m: Miner, actions: seq<Action>)
    ensures Run(m, actions).tapValue == m.tapValue
    decreases |actions|
  {
    if actions != [] {
      RunKeepsTapValue(Step(m, actions[0]), actions[1..]);
    }
  }

  /** With a non-negative tap value, no sequence of actions lowers either balance. */
  lemma {:induction false} RunKeepsEarnings(m: Miner, actions: seq<Action>)
    requires m.tapValue >= 0.0
    ensures EarningsKept(m, Run(m, actions))
    decreases |actions|
  {
    if actions != [] {
      var m' := Step(m, actions[0]);
      assert EarningsKept(m, m') && m'.tapValue == m.tapValue;
      RunKeepsEarnings(m', actions[1..]);
    }
  }

  /** From the initial state every reachable state satisfies the invariant and has lost nothing. */
  lemma ReachableFromInitial(actions: seq<Action>)
    ensures CapacityOk(Run(Initial(), actions))
    ensures Run(Initial(), actions).shroukEarned >= 0.0 && Run(Initial(), actions).tonEarned >= 0.0
  {
    RunKeepsCapacity(Initial(), actions);
    RunKeepsEarnings(Initial(), actions);
  }

  /** The number of taps in `actions` that are accepted, starting from `m`. */
  function AcceptedTaps(m: Miner, actions: seq<Action>): nat
    decreases |actions|
  {
    if actions == [] then 0
    else
      (if actions[0].TapAt? && Tap(m, actions[0].now, actions[0].roll).outcome.Accepted() then 1 else 0)
      + AcceptedTaps(Step(m, actions[0]), actions[1..])
  }

  /**
   * Without refills or upgrades, every accepted tap uses one of the taps
   * remaining, so no more taps are accepted than were remaining.
   */
  lemma {:induction false} TapsOnlyUseRemaining(m: Miner, actions: seq<Action>)
    requires CapacityOk(m)
    requires forall i :: 0 <= i < |actions| ==> actions[i].TapAt?
    ensures Run(m, actions).tapsRemaining == m.tapsRemaining - AcceptedTaps(m, actions)
    ensures AcceptedTaps(m, actions) <= m.tapsRemaining
    decreases |actions|
  {
    if actions != [] {
      var m' := Step(m, actions[0]);
      assert forall i :: 0 <= i < |actions[1..]| ==> actions[1..][i] == actions[i + 1];
      TapsOnlyUseRemaining(m', actions[1..]);
    }
  }

  /** The dashboard component: its state fields updated in place by the three handlers. */
  class MiningDashboard {
    var tapsRemaining: int
    var maxTaps: int
    var shroukEarned: real
    var tonEarned: real
    var tapValue: real
    var lastTapTime: int

    function State(): Miner
      reads this
    {
      Miner(tapsRemaining, maxTaps, shroukEarned, tonEarned, tapValue, lastTapTime)
    }

    constructor ()
      ensures State() == Initial()
    {
      tapsRemaining := InitialTaps;
      maxTaps := InitialTaps;
      shroukEarned := 0.0;
      tonEarned := 0.0;
      tapValue := InitialTapValue;
      lastTapTime := 0;
    }

    method HandleTap(now: int, roll: real) returns (outcome: TapOutcome)
      modifies this
      ensures TapResult(State(), outcome) == Tap(old(State()), now, roll)
    {
      if now - lastTapTime < CooldownMs {
        return CoolingDown;
      }
      if tapsRemaining <= 0 {
        return NoTapsRemaining;
      }
      tapsRemaining := tapsRemaining - 1;
      lastTapTime := now;
      if roll > TonThreshold {
        tonEarned := tonEarned + tapValue * TonShare;
        outcome := EarnedTon(tapValue * TonShare);
      } else {
        shroukEarned := shroukEarned + tapValue;
        outcome := EarnedShrouk(tapValue);
      }
    }

    method RefillTaps()
      modifies this
      ensures State() == Refill(old(State()))
    {
      tapsRemaining := maxTaps;
    }

    method UpgradeTapCapacity()
      modifies this
      ensures State() == UpgradeCapacity(old(State()))
    {
      maxTaps := maxTaps + CapacityStep;
      tapsRemaining := tapsRemaining + CapacityStep;
    }
  }
}
