/** The arithmetic of RWSaturatable.useResourcesToRecover: how much momentum
    one tick of discharge takes from each store, what fraction of the full
    resource rate it asks for, and when discharge switches itself off. */
module Discharge {
  import opened Vectors
  import opened Saturation
  import opened ResourceConfig

  /** momentumToRemove = fixedDeltaTime * recoveryRate * saturationLimit. */
  function MomentumToRemove(dt: real, recoveryRate: real, limit: real): real
  {
    dt * recoveryRate * limit
  }

  /** Math.Min(moment, momentumToRemove): what one store gives up. The store
      left behind is never negative; a store that is already zero or
      negative is emptied completely, however large its magnitude. */
  function Removal(moment: real, toRemove: real): (r: real)
    ensures moment - r == Max(moment - toRemove, 0.0)
    ensures r <= toRemove && r <= moment
    ensures moment <= 0.0 <= toRemove ==> r == moment
  {
    Min(moment, toRemove)
  }

  function Removals(stores: Vec3, toRemove: real): Vec3
  {
    Vec3(Removal(stores.x, toRemove), Removal(stores.y, toRemove), Removal(stores.z, toRemove))
  }

  /** The three stores after `x_Moment -= x_momentToRemove` and its siblings. */
  function Discharged(stores: Vec3, toRemove: real): (after: Vec3)
    ensures after.x >= 0.0 && after.y >= 0.0 && after.z >= 0.0
    ensures Add(after, Removals(stores, toRemove)) == stores
  {
    Vec3(stores.x - Removal(stores.x, toRemove),
         stores.y - Removal(stores.y, toRemove),
         stores.z - Removal(stores.z, toRemove))
  }

  /** On a non-negative store, discharge is the same saturating move toward
      zero that bleed uses: it takes toRemove and never crosses zero. */
  lemma DischargeIsMoveTowardZero(moment: real, toRemove: real)
    requires moment >= 0.0 && toRemove >= 0.0
    ensures moment - Removal(moment, toRemove) == MoveTowardZero(moment, toRemove)
  {
  }

  /** resourcePctToRequest: the share of the full rate requested, the
      momentum actually removed over three full removals, so that less
      removed means less requested. It never exceeds one, it is one when
      every store holds at least a full removal, and it is negative exactly
      when the removals sum below zero. */
  function RequestFraction(stores: Vec3, toRemove: real): (f: real)
    requires toRemove > 0.0
    ensures f <= 1.0
    ensures stores.x >= 0.0 && stores.y >= 0.0 && stores.z >= 0.0 ==> f >= 0.0
    ensures stores.x >= toRemove && stores.y >= toRemove && stores.z >= toRemove ==> f == 1.0
    ensures stores == Zero ==> f == 0.0
    ensures IsFraction(f, Removal(stores.x, toRemove) + Removal(stores.y, toRemove) + Removal(stores.z, toRemove), 3.0 * toRemove)
    ensures f < 0.0 <==> Removal(stores.x, toRemove) + Removal(stores.y, toRemove) + Removal(stores.z, toRemove) < 0.0
  {
    var removed := Removal(stores.x, toRemove) + Removal(stores.y, toRemove) + Removal(stores.z, toRemove);
    QuotientBounds(removed, 3.0 * toRemove);
    removed / (3.0 * toRemove)
  }

  lemma QuotientBounds(a: real, b: real)
    requires b > 0.0
    ensures a <= b ==> a / b <= 1.0
    ensures a >= 0.0 ==> a / b >= 0.0
    ensures a < 0.0 ==> a / b < 0.0
    ensures a == b ==> a / b == 1.0
  {
    var q := a / b;
    assert q * b == a;
    assert (q - 1.0) * b == a - b;
  }

  /** The amount asked of each consumer, `rc.Rate * resourcePctToRequest *
      fixedDeltaTime`, in list order. With a fraction of at most one, no
      request exceeds that consumer's full-rate draw for the tick. */
  function Requests(consumers: seq<ResourceConsumer>, fraction: real, dt: real): (amounts: seq<real>)
    ensures |amounts| == |consumers|
    ensures forall i :: 0 <= i < |amounts| ==> amounts[i] == consumers[i].rate * fraction * dt
    ensures fraction <= 1.0 && dt >= 0.0 ==>
      forall i :: 0 <= i < |amounts| && consumers[i].rate >= 0.0 ==> amounts[i] <= consumers[i].rate * dt
  {
    var amounts := seq(|consumers|, i requires 0 <= i < |consumers| => consumers[i].rate * fraction * dt);
    assert fraction <= 1.0 && dt >= 0.0 ==>
      forall i :: 0 <= i < |amounts| && consumers[i].rate >= 0.0 ==> amounts[i] <= consumers[i].rate * dt by {
      if fraction <= 1.0 && dt >= 0.0 {
        forall i | 0 <= i < |amounts| && consumers[i].rate >= 0.0
          ensures amounts[i] <= consumers[i].rate * dt
        {
          RequestBound(consumers[i].rate, fraction, dt);
        }
      }
    }
    amounts
  }

  lemma RequestBound(rate: real, fraction: real, dt: real)
    requires rate >= 0.0 && fraction <= 1.0 && dt >= 0.0
    ensures rate * fraction * dt <= rate * dt
  {
    assert rate * dt >= 0.0;
    assert rate * fraction * dt == (rate * dt) * fraction;
    assert (rate * dt) * fraction <= (rate * dt) * 1.0;
  }

  /** `actual < amount * 0.99`: the part delivered less than 99% of the request. */
  predicate Shortfall(requested: real, received: real)
  {
    received < requested * 0.99
  }

  /** bConsumeResource after a discharge tick that started with it set: it is
      cleared by any shortfall and by all three stores reaching exactly 0. */
  function StillDischarging(requested: seq<real>, received: seq<real>, after: Vec3): (on: bool)
    requires |requested| == |received|
    ensures on ==> after != Zero
    ensures (exists i :: 0 <= i < |requested| && Shortfall(requested[i], received[i])) ==> !on
    ensures after != Zero && (forall i :: 0 <= i < |requested| ==> received[i] >= requested[i] * 0.99) ==> on
  {
    (forall i :: 0 <= i < |requested| ==> !Shortfall(requested[i], received[i]))
    && !(after.x == 0.0 && after.y == 0.0 && after.z == 0.0)
  }

  /** The resource loop of useResourcesToRecover: ask each consumer in turn
    for `Rate * fraction * fixedDeltaTime` through `request(i, amount)`,
    asking every one even after a shortfall, and clear the flag `on` as soon
    as one delivers less than 99% of its request. */
  method RequestAll(consumers: seq<ResourceConsumer>, fraction: real, dt: real,
                    request: (nat, real) -> real, on: bool)
    returns (requested: seq<real>, received: seq<real>, stillOn: bool)
    ensures requested == Requests(consumers, fraction, dt)
    ensures |received| == |requested|
    ensures forall i :: 0 <= i < |received| ==> received[i] == request(i, requested[i])
    ensures stillOn == (on && forall i :: 0 <= i < |requested| ==> !Shortfall(requested[i], received[i]))
  {
    ghost var amounts := Requests(consumers, fraction, dt);
    requested, received, stillOn := [], [], on;
    var i := 0;
    while i < |consumers|
      invariant 0 <= i <= |consumers|
      invariant requested == amounts[..i]
      invariant |received| == i
      invariant forall k :: 0 <= k < i ==> received[k] == request(k, requested[k])
      invariant stillOn == (on && forall k :: 0 <= k < i ==> !Shortfall(requested[k], received[k]))
    {
      var amount := consumers[i].rate * fraction * dt;
      var actual := request(i, amount);
      if actual < amount * 0.99 {
        stillOn := false;
      }
      assert amounts[i] == amount;
      assert amounts[..i + 1] == amounts[..i] + [amount];
      requested := requested + [amount];
      received := received + [actual];
      i := i + 1;
    }
    assert amounts[..i] == amounts;
  }

  /** As written, a negative store is not bled by toRemove but emptied in a
      single tick... */
  lemma NegativeStoreEmptiedAtOnce()
    ensures Discharged(Vec3(-10.0, 0.0, 0.0), 1.0) == Zero
  {
  }

  /** ...and with the other stores empty it drives the request fraction
      negative, so every resource request of that tick is a negative amount.
      In general the fraction is negative exactly when the three removals
      sum below zero (`RequestFraction`). */
  lemma NegativeStoreNegativeRequest()
    ensures RequestFraction(Vec3(-10.0, 0.0, 0.0), 1.0) < 0.0
  {
  }

  /** For a negative request the 99% test is inverted: a full delivery
      counts as a shortfall and switches discharge off, while a delivery of
      nothing does not count as one. */
  lemma NegativeRequestFullDeliveryFallsShort(amount: real, after: Vec3)
    requires amount < 0.0
    ensures Shortfall(amount, amount)
    ensures !StillDischarging([amount], [amount], after)
    ensures !Shortfall(amount, 0.0)
    ensures after != Zero ==> StillDischarging([amount], [0.0], after)
  {
    assert Shortfall([amount][0], [amount][0]);
    assert forall i :: 0 <= i < 1 ==> !Shortfall([amount][i], [0.0][i]);
  }
}
