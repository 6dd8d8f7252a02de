/** The selection loop of `findWarmestCountry` (script.py:32-41): walk the
    countries with their current temperatures, skip missing readings, and
    keep the first country whose reading beats every earlier one. */
module WarmestCountry {
  import opened Wrappers

  /** A country's name and its current temperature, `None` when the
      temperature endpoint answered with a null `temperature`. */
  type Reading = (string, Option<real>)

  /** Specification of the loop: the position of the selected reading, or
      None when nothing is selected. Defined by the last reading, as the loop
      sees them. */
  function WarmestIndex(readings: seq<Reading>): (r: Option<nat>)
    ensures r.Some? ==> r.value < |readings| && readings[r.value].1.Some?
    decreases |readings|
  {
    if readings == [] then None
    else
      var k := |readings| - 1;
      var best := WarmestIndex(readings[..k]);
      var current := readings[k].1;
      if current.Some? && (best.None? || current.value > readings[best.value].1.value) then Some(k)
      else best
  }

  /** The selected reading is at least as high as every reading there is. */
  lemma {:induction false} WarmestIsHighest(readings: seq<Reading>)
    ensures WarmestIndex(readings).Some? ==>
              forall i :: 0 <= i < |readings| && readings[i].1.Some? ==>
                readings[i].1.value <= readings[WarmestIndex(readings).value].1.value
    decreases |readings|
  {
    if readings != [] {
      var k := |readings| - 1;
      var prefix := readings[..k];
      WarmestIsHighest(prefix);
      WarmestNoneIff(prefix);
      assert forall i :: 0 <= i < k ==> prefix[i] == readings[i];
      var best := WarmestIndex(prefix);
      if WarmestIndex(readings) == Some(k) {
        if best.Some? {
          assert readings[k].1.value > readings[best.value].1.value;
        }
      } else {
        assert WarmestIndex(readings) == best;
      }
    }
  }

  /** Every reading before the selected one is strictly lower: on a tie the
      earliest country wins. */
  lemma {:induction false} WarmestIsEarliest(readings: seq<Reading>)
    ensures WarmestIndex(readings).Some? ==>
              forall i :: 0 <= i < WarmestIndex(readings).value && readings[i].1.Some? ==>
                readings[i].1.value < readings[WarmestIndex(readings).value].1.value
    decreases |readings|
  {
    if readings != [] {
      var k := |readings| - 1;
      var prefix := readings[..k];
      WarmestIsEarliest(prefix);
      WarmestIsHighest(prefix);
      WarmestNoneIff(prefix);
      assert forall i :: 0 <= i < k ==> prefix[i] == readings[i];
      var best := WarmestIndex(prefix);
      if WarmestIndex(readings) == Some(k) {
        if best.Some? {
          assert prefix[best.value] == readings[best.value];
          assert readings[k].1.value > readings[best.value].1.value;
        }
      } else {
        assert WarmestIndex(readings) == best;
      }
    }
  }

  /** Nothing is selected exactly when no reading is present (in particular
      for no countries at all). */
  lemma {:induction false} WarmestNoneIff(readings: seq<Reading>)
    ensures WarmestIndex(readings).None? <==> forall i :: 0 <= i < |readings| ==> readings[i].1.None?
    decreases |readings|
  {
    if readings != [] {
      var k := |readings| - 1;
      var prefix := readings[..k];
      WarmestNoneIff(prefix);
      assert forall i :: 0 <= i < k ==> prefix[i] == readings[i];
    }
  }

  /** The three properties above determine the selection: a present reading
      that is the highest and strictly beats every earlier one is the one
      selected. */
  lemma {:induction false} WarmestUnique(readings: seq<Reading>, k: nat)
    requires k < |readings| && readings[k].1.Some?
    requires forall i :: 0 <= i < |readings| && readings[i].1.Some? ==> readings[i].1.value <= readings[k].1.value
    requires forall i :: 0 <= i < k && readings[i].1.Some? ==> readings[i].1.value < readings[k].1.value
    ensures WarmestIndex(readings) == Some(k)
  {
    WarmestNoneIff(readings);
    WarmestIsHighest(readings);
    WarmestIsEarliest(readings);
  }

  /** The loop itself, returning the two variables it updates. */
  method FindWarmestCountry(readings: seq<Reading>) returns (warmest: Option<string>, highest: Option<real>)
    ensures match WarmestIndex(readings)
            case None => warmest == None && highest == None
            case Some(k) => warmest == Some(readings[k].0) && highest == readings[k].1
    ensures warmest.None? <==> forall i :: 0 <= i < |readings| ==> readings[i].1.None?
    ensures highest.Some? ==>
              forall i :: 0 <= i < |readings| && readings[i].1.Some? ==> readings[i].1.value <= highest.value
  {
    warmest, highest := None, None;
    ghost var best: Option<nat> := None;
    for i := 0 to |readings|
      invariant best == WarmestIndex(readings[..i])
      invariant best.None? ==> warmest == None && highest == None
      invariant best.Some? ==> best.value < i && warmest == Some(readings[best.value].0) && highest == readings[best.value].1
    {
      assert readings[..i + 1][..i] == readings[..i];
      var (name, currentTemp) := readings[i];
      if currentTemp.Some? && (highest.None? || currentTemp.value > highest.value) {
        warmest := Some(name);
        highest := currentTemp;
        best := Some(i);
      }
    }
    assert readings[..|readings|] == readings;
    WarmestNoneIff(readings);
    WarmestIsHighest(readings);
  }
}
