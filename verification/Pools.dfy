/** Building the runtime's pools, and which slot of its pool a conversation uses. */
module Pools {
  import opened Wrappers
  import opened Slots

  const DEFAULT_MAX_AGENTS: nat := 8

  // ---- building ---------------------------------------------------------------

  /** No adapter that this slot started is left running without its Close called. */
  ghost predicate NothingLeft(slot: AdapterSlot)
    reads slot
  {
    forall a: nat :: a < slot.ledger.started ==> a in slot.ledger.stopped
  }

  ghost predicate AllValid(slots: seq<AdapterSlot>)
    reads slots
  {
    forall i :: 0 <= i < |slots| ==> slots[i].Valid()
  }

  ghost predicate Distinct(slots: seq<AdapterSlot>) {
    forall i, j :: 0 <= i < j < |slots| ==> slots[i] != slots[j]
  }

  /** Each slot holds its first adapter. */
  ghost predicate AllFilled(slots: seq<AdapterSlot>)
    reads slots
  {
    forall i :: 0 <= i < |slots| ==> Init(slots[i].State())
  }

  ghost predicate AllEmptied(slots: seq<AdapterSlot>)
    reads slots
  {
    forall i :: 0 <= i < |slots| ==> NothingLeft(slots[i])
  }

  /** An enabled persona: whether its MCP profile resolves, and how starting the first
      adapter of each of its slots would end. */
  datatype Member = Member(resolves: bool, starts: seq<StartOutcome>)

  /** `complete`: roster, profiles, store, start function and directory are all given;
      `profilesValid`: the profile names of the roster pass validation. */
  datatype Config = Config(complete: bool, maxTurns: int, maxAgents: int, profilesValid: bool)

  function Limit(config: Config): nat {
    if config.maxAgents <= 0 then DEFAULT_MAX_AGENTS else config.maxAgents
  }

  function Total(members: seq<Member>): nat {
    if members == [] then 0
    else Total(members[..|members| - 1]) + |members[|members| - 1].starts|
  }

  predicate IsReady(member: Member) { member.resolves && AllStart(member.starts) }

  predicate AllStart(starts: seq<StartOutcome>) {
    forall i :: 0 <= i < |starts| ==> starts[i].Started?
  }

  method CloseAll(slots: seq<AdapterSlot>)
    requires AllValid(slots) && Distinct(slots)
    modifies slots
    ensures AllValid(slots)
    ensures AllEmptied(slots) && forall i :: 0 <= i < |slots| ==> slots[i].closed
  {
    for i := 0 to |slots|
      invariant AllValid(slots)
      invariant forall k :: 0 <= k < i ==> slots[k].closed && NothingLeft(slots[k])
    {
      slots[i].Close();
    }
  }

  /** A slot and its first adapter. */
  method NewSlot(start: StartOutcome) returns (started: bool, slot: AdapterSlot)
    ensures fresh(slot) && slot.Valid()
    ensures started <==> start.Started?
    ensures if started then Init(slot.State()) else NothingLeft(slot)
  {
    slot := new AdapterSlot();
    var adapter := slot.Start(start);
    if adapter.None? {
      return false, slot;
    }
    slot.manager, slot.closer, slot.probe := adapter, adapter, adapter;
    return true, slot;
  }

  /** `made` are all slots that were begun. The pool is ready exactly when the profile
      resolves and every adapter starts; otherwise nothing it started is left running. */
  method NewPool(member: Member) returns (ok: bool, made: seq<AdapterSlot>)
    ensures ok <==> IsReady(member)
    ensures fresh(made) && AllValid(made) && Distinct(made)
    ensures ok ==> |made| == |member.starts| && AllFilled(made)
    ensures !ok ==> AllEmptied(made)
    ensures !member.resolves ==> made == []
  {
    made := [];
    if !member.resolves {
      return false, made;
    }
    var starts := member.starts;
    for i := 0 to |starts|
      invariant |made| == i && forall k :: 0 <= k < i ==> starts[k].Started?
      invariant fresh(made) && AllValid(made) && Distinct(made) && AllFilled(made)
    {
      var started, slot := NewSlot(starts[i]);
      if !started {
        CloseAll(made);
        return false, made + [slot];
      }
      made := made + [slot];
    }
    return true, made;
  }

  method CountSlots(personas: seq<Member>) returns (total: nat)
    ensures total == Total(personas)
  {
    total := 0;
    for i := 0 to |personas|
      invariant total == Total(personas[..i])
    {
      total := total + |personas[i].starts|;
      assert personas[..i + 1][..i] == personas[..i];
    }
    assert personas[..|personas|] == personas;
  }

  /** Whether anything is started at all. */
  predicate MayStart(config: Config, personas: seq<Member>) {
    && config.complete && config.maxTurns > 0 && config.profilesValid
    && Total(personas) <= Limit(config)
  }

  /** One pool per enabled persona. A wrong configuration and too many slots are refused
      before anything starts; if any persona cannot be made ready, nothing that was
      started is left running. */
  method New(config: Config, personas: seq<Member>) returns (ok: bool, made: seq<AdapterSlot>)
    ensures ok <==>
      MayStart(config, personas) && forall i :: 0 <= i < |personas| ==> IsReady(personas[i])
    ensures fresh(made) && AllValid(made) && Distinct(made)
    ensures ok ==> |made| == Total(personas) && AllFilled(made)
    ensures !ok ==> AllEmptied(made)
    ensures !MayStart(config, personas) ==> made == []
  {
    made := [];
    if !config.complete || config.maxTurns <= 0 {
      return false, made;
    }
    var limit := if config.maxAgents <= 0 then DEFAULT_MAX_AGENTS else config.maxAgents;
    var total := CountSlots(personas);
    if total > limit || !config.profilesValid {
      return false, made;
    }
    hide IsReady;
    for i := 0 to |personas|
      invariant |made| == Total(personas[..i])
      invariant forall k :: 0 <= k < i ==> IsReady(personas[k])
      invariant fresh(made) && AllValid(made) && Distinct(made) && AllFilled(made)
    {
      var ready, slots := NewPool(personas[i]);
      if !ready {
        CloseAll(made);
        return false, made + slots;
      }
      made := made + slots;
      assert personas[..i + 1][..i] == personas[..i];
    }
    assert personas[..|personas|] == personas;
    return true, made;
  }

  // ---- sticky round robin -----------------------------------------------------

  /** How many of the first `k` turns of a round robin over `n` places go to `place`. */
  function Share(k: nat, n: nat, place: nat): nat
    requires n > 0
  {
    if k == 0 then 0 else Share(k - 1, n, place) + if (k - 1) % n == place then 1 else 0
  }

  /** Every place gets the quotient; the first remainder places get one more. */
  lemma {:induction false} ShareIsFair(k: nat, n: nat, place: nat)
    requires place < n
    ensures Share(k, n, place) == k / n + (if place < k % n then 1 else 0)
  {
    if k > 0 {
      ShareIsFair(k - 1, n, place);
      QuotientStep(k - 1, n);
    }
  }

  lemma QuotientStep(k: nat, n: nat)
    requires n > 0
    ensures
      if k % n == n - 1 then (k + 1) / n == k / n + 1 && (k + 1) % n == 0
      else (k + 1) / n == k / n && (k + 1) % n == k % n + 1
  {
    var q, r := k / n, k % n;
    assert k == q * n + r;
    if r == n - 1 {
      assert k + 1 == (q + 1) * n;
      QuotientIs(k + 1, n, q + 1, 0);
    } else {
      QuotientIs(k + 1, n, q, r + 1);
    }
  }

  lemma QuotientIs(k: nat, n: nat, q: nat, r: nat)
    requires n > 0 && r < n && k == q * n + r
    ensures k / n == q && k % n == r
  {
    var p, s := k / n, k % n;
    assert k == p * n + s;
    if p < q { NextMultiple(p, q, n); }
    if q < p { NextMultiple(q, p, n); }
  }

  lemma NextMultiple(a: nat, b: nat, n: nat)
    requires a < b
    ensures b * n >= a * n + n
  {
    var d: nat := b - a - 1;
    assert b * n == a * n + n + d * n;
  }

  /** Keys in the order they were first seen. */
  ghost predicate NoKeyTwice(order: seq<string>) {
    forall i, j :: 0 <= i < j < |order| ==> order[i] != order[j]
  }

  /** The keys that `slotOf` gives to a slot. */
  ghost function KeysOf(slotOf: map<string, nat>, slot: nat): set<string> {
    set key | key in slotOf && slotOf[key] == slot
  }

  /** Keys and slots agree with the round robin. */
  ghost predicate InOrder(slotOf: map<string, nat>, order: seq<string>, slots: nat)
    requires slots > 0
  {
    && NoKeyTwice(order)
    && (forall key :: key in slotOf <==> key in order)
    && forall i :: 0 <= i < |order| ==> order[i] in slotOf && slotOf[order[i]] == i % slots
  }

  /** The keys that come round to a slot. */
  ghost function Dealt(order: seq<string>, slots: nat, slot: nat): (keys: set<string>)
    requires slots > 0
    ensures forall key :: key in keys <==>
      exists i :: 0 <= i < |order| && order[i] == key && i % slots == slot
  {
    if order == [] then {}
    else
      var n := |order| - 1;
      var keys := Dealt(order[..n], slots, slot);
      if n % slots == slot then keys + {order[n]} else keys
  }

  lemma {:induction false} DealtCount(order: seq<string>, slots: nat, slot: nat)
    requires slots > 0 && NoKeyTwice(order)
    ensures |Dealt(order, slots, slot)| == Share(|order|, slots, slot)
  {
    if order != [] {
      var n := |order| - 1;
      DealtCount(order[..n], slots, slot);
      assert order[n] !in Dealt(order[..n], slots, slot);
    }
  }

  lemma KeysAreDealt(slotOf: map<string, nat>, order: seq<string>, slots: nat, slot: nat)
    requires slots > 0 && InOrder(slotOf, order, slots)
    ensures KeysOf(slotOf, slot) == Dealt(order, slots, slot)
  {
    forall key ensures key in KeysOf(slotOf, slot) <==> key in Dealt(order, slots, slot) {
      if key in order {
        var i :| 0 <= i < |order| && order[i] == key;
        assert slotOf[order[i]] == i % slots;
      }
    }
  }

  class Assignment {
    const slots: nat
    var slotOf: map<string, nat>
    var nextSlot: nat
    ghost var order: seq<string>

    ghost predicate Valid()
      reads this
    {
      slots > 0 && nextSlot == |order| && InOrder(slotOf, order, slots)
    }

    constructor (slots: nat)
      requires slots > 0
      ensures Valid() && this.slots == slots && slotOf == map[]
    {
      this.slots := slots;
      slotOf, nextSlot, order := map[], 0, [];
    }

    /** A key keeps its slot for ever; a new key takes the next slot in turn. */
    method SlotFor(key: string) returns (slot: nat)
      requires Valid()
      modifies this
      ensures Valid() && slot < slots
      ensures slotOf == old(slotOf)[key := slot]
      ensures key in old(slotOf) ==> slot == old(slotOf)[key] && slotOf == old(slotOf)
      ensures key !in old(slotOf) ==> slot == |old(slotOf)| % slots
    {
      if key in slotOf {
        return slotOf[key];
      }
      OrderCounts(slotOf, order, slots);
      slot := nextSlot % slots;
      nextSlot := nextSlot + 1;
      slotOf := slotOf[key := slot];
      order := order + [key];
    }

    /** After any number of keys, each slot owns the floor or the ceiling of its share. */
    lemma Balanced(slot: nat)
      requires Valid() && slot < slots
      ensures |KeysOf(slotOf, slot)| ==
        |slotOf| / slots + (if slot < |slotOf| % slots then 1 else 0)
    {
      OrderCounts(slotOf, order, slots);
      KeysAreDealt(slotOf, order, slots, slot);
      DealtCount(order, slots, slot);
      ShareIsFair(|order|, slots, slot);
    }
  }

  lemma OrderCounts(slotOf: map<string, nat>, order: seq<string>, slots: nat)
    requires slots > 0 && InOrder(slotOf, order, slots)
    ensures |slotOf| == |order|
  {
    var keys := set key | key in order;
    assert slotOf.Keys == keys;
    DistinctCount(order);
    assert |slotOf| == |slotOf.Keys|;
  }

  lemma {:induction false} DistinctCount(order: seq<string>)
    requires NoKeyTwice(order)
    ensures |set key | key in order| == |order|
  {
    if order != [] {
      var n := |order| - 1;
      DistinctCount(order[..n]);
      assert (set key | key in order) == (set key | key in order[..n]) + {order[n]};
    }
  }
}
