/** The quantity stepper of `quantity_handler` (bot.py:310-321): `incr`
    adds one bottle, `decr` removes one but never goes below two, and any
    other button leaves the count alone. */
module Stepper {

  /** The smallest order the bot accepts. */
  const MinQuantity := 2

  /** The count after one tap on the stepper. */
  function StepQuantity(qty: int, data: string): (r: int)
    ensures data == "incr" ==> r == qty + 1
    ensures data == "decr" ==> r == if qty > MinQuantity then qty - 1 else MinQuantity
    ensures data != "incr" && data != "decr" ==> r == qty
  {
    if data == "incr" then qty + 1
    else if data == "decr" then (if qty > 2 then qty - 1 else 2)
    else qty
  }

  /** The count after a run of taps, in arrival order. */
  function ApplyAll(qty: int, taps: seq<string>): int
    decreases |taps|
  {
    if taps == [] then qty else ApplyAll(StepQuantity(qty, taps[0]), taps[1..])
  }

  function Count(taps: seq<string>, data: string): nat {
    if taps == [] then 0 else (if taps[0] == data then 1 else 0) + Count(taps[1..], data)
  }

  /** From a count of at least two, any run of taps keeps the count at
      least two, adds at most one per `incr` and removes at most one per
      `decr`. */
  lemma {:induction false} ApplyAllBounds(qty: int, taps: seq<string>)
    requires qty >= MinQuantity
    ensures var r := ApplyAll(qty, taps);
      r >= MinQuantity &&
      r <= qty + Count(taps, "incr") &&
      r >= qty + Count(taps, "incr") - Count(taps, "decr")
    decreases |taps|
  {
    if taps != [] {
      ApplyAllBounds(StepQuantity(qty, taps[0]), taps[1..]);
    }
  }

  function Repeat(data: string, n: nat): (r: seq<string>)
    ensures |r| == n && forall i :: 0 <= i < n ==> r[i] == data
  {
    if n == 0 then [] else [data] + Repeat(data, n - 1)
  }

  lemma {:induction false} ApplyAllAppend(qty: int, a: seq<string>, b: seq<string>)
    ensures ApplyAll(qty, a + b) == ApplyAll(ApplyAll(qty, a), b)
    decreases |a|
  {
    if a == [] {
      assert a + b == b;
    } else {
      assert (a + b)[0] == a[0];
      assert (a + b)[1..] == a[1..] + b;
      ApplyAllAppend(StepQuantity(qty, a[0]), a[1..], b);
    }
  }

  lemma {:induction false} Increments(qty: int, n: nat)
    ensures ApplyAll(qty, Repeat("incr", n)) == qty + n
    decreases n
  {
    if n > 0 {
      assert Repeat("incr", n)[1..] == Repeat("incr", n - 1);
      Increments(qty + 1, n - 1);
    }
  }

  lemma {:induction false} Decrements(qty: int, n: nat)
    requires qty >= MinQuantity
    ensures ApplyAll(qty, Repeat("decr", n)) == if qty - n > MinQuantity then qty - n else MinQuantity
    decreases n
  {
    if n > 0 {
      assert Repeat("decr", n)[1..] == Repeat("decr", n - 1);
      Decrements(StepQuantity(qty, "decr"), n - 1);
    }
  }

  /** When every `incr` comes before every `decr`, the count is
      max(2, start + increments - decrements). */
  lemma IncrementsThenDecrements(qty: int, i: nat, d: nat)
    requires qty >= MinQuantity
    ensures var r := ApplyAll(qty, Repeat("incr", i) + Repeat("decr", d));
      r == if qty + i - d > MinQuantity then qty + i - d else MinQuantity
  {
    ApplyAllAppend(qty, Repeat("incr", i), Repeat("decr", d));
    Increments(qty, i);
    Decrements(qty + i, d);
  }

  /** Order matters: a `decr` at the floor is lost, so `decr, incr` from two
      ends at three, not at max(2, 2 + 1 - 1). */
  lemma DecrementAtFloorIsLost()
    ensures ApplyAll(2, ["decr", "incr"]) == 3
  {
    assert ["decr", "incr"][1..] == ["incr"];
    assert ["incr"][1..] == [];
  }

  /** Three increments and one decrement from the default of two give four. */
  lemma ThreeUpOneDown()
    ensures ApplyAll(2, ["incr", "incr", "incr", "decr"]) == 4
  {
    IncrementsThenDecrements(2, 3, 1);
    assert Repeat("incr", 3) + Repeat("decr", 1) == ["incr", "incr", "incr", "decr"];
  }
}
