/** The wallet of an organization and the usage events that explain it. */
module Billing {
  import opened Money

  datatype UsageEvent = UsageEvent(org: nat, task: nat, amount: real, unlimitedSkip: bool)

  datatype Ledger = Ledger(balances: map<nat, real>, events: seq<UsageEvent>)

  /** A tariff as frozen on a task when it was created. */
  datatype Snapshot = Snapshot(unlimited: bool, pricePerAudioSec: real, pricePer1kChars: real)

  function TranscribePrice(snap: Snapshot, audioSec: real): real {
    audioSec * snap.pricePerAudioSec
  }

  function SummarizePrice(snap: Snapshot, length: nat): real {
    SummaryCharUnits(length) as real * snap.pricePer1kChars
  }

  function TranscribeAmount(snap: Snapshot, audioSec: real): real {
    UsageChargeAmount(TranscribePrice(snap, audioSec))
  }

  function SummarizeAmount(snap: Snapshot, length: nat): real {
    UsageChargeAmount(SummarizePrice(snap, length))
  }

  /** Charge a task that has not been charged: one event, and the balance goes down unless unlimited. */
  function Charge(l: Ledger, org: nat, task: nat, unlimited: bool, amount: real): Ledger {
    if org !in l.balances then l
    else Ledger(
      if unlimited then l.balances else l.balances[org := FloorMoney(l.balances[org] - amount)],
      l.events + [UsageEvent(org, task, amount, unlimited)])
  }

  /** The sum of an organization's charges that were taken from its balance. */
  function Charged(events: seq<UsageEvent>, org: nat): real {
    if events == [] then 0.0
    else
      var e := events[|events| - 1];
      Charged(events[..|events| - 1], org) + (if e.org == org && !e.unlimitedSkip then e.amount else 0.0)
  }

  /** The events of one task. */
  function EventsOf(events: seq<UsageEvent>, task: nat): nat {
    if events == [] then 0
    else EventsOf(events[..|events| - 1], task) + (if events[|events| - 1].task == task then 1 else 0)
  }

  ghost predicate LedgerIsMoney(l: Ledger) {
    forall org :: org in l.balances ==> IsMoney(l.balances[org])
  }

  /** A charge moves money from the balance to the events, exactly, and touches no other organization. */
  lemma ChargeConserves(l: Ledger, org: nat, task: nat, unlimited: bool, amount: real)
    requires LedgerIsMoney(l) && IsMoney(amount)
    ensures var l' := Charge(l, org, task, unlimited, amount);
            && LedgerIsMoney(l') && l'.balances.Keys == l.balances.Keys
            && (forall o :: o in l.balances ==>
                  l'.balances[o] + Charged(l'.events, o) == l.balances[o] + Charged(l.events, o))
            && (forall t :: EventsOf(l'.events, t) ==
                  EventsOf(l.events, t) + (if t == task && org in l.balances then 1 else 0))
  {
    var l' := Charge(l, org, task, unlimited, amount);
    if org in l.balances {
      DifferenceIsMoney(l.balances[org], amount);
      FloorMoneyKeepsMoney(l.balances[org] - amount);
      assert l'.events[..|l.events|] == l.events;
    }
  }

  /** A wallet correction by the instance administrator. */
  function AdjustWallet(l: Ledger, org: nat, delta: real): Ledger {
    if org !in l.balances then l
    else l.(balances := l.balances[org := FloorMoney(l.balances[org] + FloorMoney(delta))])
  }

  lemma AdjustIsExact(l: Ledger, org: nat, delta: real)
    requires LedgerIsMoney(l) && org in l.balances
    ensures LedgerIsMoney(AdjustWallet(l, org, delta))
    ensures AdjustWallet(l, org, delta).balances == l.balances[org := l.balances[org] + FloorMoney(delta)]
  {
    FloorMoneyIsClose(delta);
    DifferenceIsMoney(l.balances[org], FloorMoney(delta));
    FloorMoneyKeepsMoney(l.balances[org] + FloorMoney(delta));
  }

  /** The rows a charge touches: organizations, usage events and the task's `billed` mark. */
  class Accounts {
    var balances: map<nat, real>
    var events: seq<UsageEvent>
    var billed: set<nat>

    constructor (start: map<nat, real>)
      ensures View() == Ledger(start, []) && billed == {}
    {
      balances, events, billed := start, [], {};
    }

    ghost function View(): Ledger
      reads this
    {
      Ledger(balances, events)
    }

    /** The second charge of a task, from whatever path, does nothing. */
    method ApplySuccessCharge(org: nat, task: nat, unlimited: bool, amount: real)
      requires org in balances
      modifies this
      ensures task in old(billed) ==> View() == old(View())
      ensures task !in old(billed) ==> View() == Charge(old(View()), org, task, unlimited, amount)
      ensures billed == old(billed) + {task}
    {
      if task in billed {
        return;
      }
      if !unlimited {
        balances := balances[org := FloorMoney(balances[org] - amount)];
      }
      events := events + [UsageEvent(org, task, amount, unlimited)];
      billed := billed + {task};
    }
  }
}
