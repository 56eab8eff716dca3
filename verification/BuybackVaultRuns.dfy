/** What every run of locks and releases keeps, and how closely repeated floored releases follow the straight line. */
module BuybackVaultRuns {
  import opened Balances
  import opened FloorMath
  import opened Outcomes
  import opened BuybackVaultModel

  ghost predicate VestInv(v: Vest, now: nat) {
    && v.totalLocked == v.totalReleased + v.vestedUnreleased + v.unvestedAmount
    && v.lastUpdate <= now
    && v.protocolFeeShareBps <= BPS
    && (0 < v.unvestedAmount ==> v.lastUpdate < v.vestingEnd <= v.lastUpdate + VESTING_DURATION)
    && (EpochOpen(v) ==> v.creatorRecipient != NOBODY && v.protocolRecipient != NOBODY)
  }

  /** Reachable states; the clock of a live chain is past 1975, so it exceeds the vesting duration. */
  ghost predicate Inv(s: State) {
    && VESTING_DURATION <= s.now
    && VestInv(s.vest, s.now)
    && s.vest.vestedUnreleased + s.vest.unvestedAmount <= s.held
    && s.toCreator + s.toProtocol == s.vest.totalReleased
  }

  // ---- One update ----

  /** What has vested never shrinks as time passes, and everything has vested by vestingEnd. */
  lemma VestedGrowsWithTime(v: Vest, t: nat, later: nat)
    requires t <= later
    ensures VestedAmount(v, t) <= VestedAmount(v, later)
    ensures v.lastUpdate < later && v.vestingEnd <= later ==> Outstanding(v, later) == 0
  {
    if v.unvestedAmount != 0 && v.lastUpdate < t && later < v.vestingEnd {
      MulLe(t - v.lastUpdate, later - v.lastUpdate, v.unvestedAmount);
      CancelLt(NewlyVested(v, t), NewlyVested(v, later) + 1, v.vestingEnd - v.lastUpdate);
    }
  }

  /** The averaged duration lies between what was left and a full term, and is never zero. */
  lemma CombinedDurationBounds(unvested: nat, remaining: nat, amount: nat)
    requires 0 < amount && remaining <= VESTING_DURATION && (0 < unvested ==> 0 < remaining)
    ensures 0 < CombinedDuration(unvested, remaining, amount) <= VESTING_DURATION
    ensures 0 < unvested ==> remaining <= CombinedDuration(unvested, remaining, amount)
  {
    var w := unvested + amount;
    var total := unvested * remaining + amount * VESTING_DURATION;
    var d := CombinedDuration(unvested, remaining, amount);
    MulLe(remaining, VESTING_DURATION, unvested);
    assert VESTING_DURATION * w == unvested * VESTING_DURATION + amount * VESTING_DURATION;
    CancelLe(d, VESTING_DURATION, w);
    MulLe(remaining, VESTING_DURATION, amount);
    assert remaining * w == unvested * remaining + amount * remaining;
    if 0 < unvested {
      CancelLt(remaining, d + 1, w);
    } else {
      assert VESTING_DURATION * w == total;
      CancelLt(VESTING_DURATION, d + 1, w);
    }
  }

  /**
   A deposit never fails a checked subtraction, never brings maturity closer and never lowers what has vested;
   it opens or extends the epoch and leaves the invariant in place.
   */
  lemma LockKeeps(v: Vest, now: nat, authorized: bool, amount: nat, received: nat, terms: Terms)
    requires VestInv(v, now) && VESTING_DURATION <= now
    ensures var r := LockVest(v, now, authorized, amount, received, terms);
            && r != Failure(Underflow)
            && (r.Success? ==>
                  && VestInv(r.value, now)
                  && VestedAmount(r.value, now) == VestedAmount(v, now)
                  && r.value.totalLocked == v.totalLocked + (if amount == 0 then 0 else received)
                  && r.value.totalReleased == v.totalReleased
                  && (0 < Outstanding(v, now) ==> v.vestingEnd <= r.value.vestingEnd))
  {
    var agreed := SetOrValidateTerms(Checkpoint(v, now), terms);
    if amount != 0 && received != 0 && agreed.Success? {
      var u := agreed.value.unvestedAmount;
      CombinedDurationBounds(u, if u == 0 then 0 else v.vestingEnd - now, received);
    }
  }

  /** A release pays everything vested, split without loss, and moves nothing else. */
  lemma ReleaseKeeps(v: Vest, now: nat, caller: Address)
    requires VestInv(v, now)
    ensures var r := ReleaseVest(v, now, caller);
            && (r.Success? <==> caller == v.creatorRecipient || caller == v.protocolRecipient)
            && (r.Success? ==>
                  && VestInv(r.value.0, now)
                  && r.value.0.vestedUnreleased == 0
                  && r.value.0.totalReleased == VestedAmount(v, now) == VestedAmount(r.value.0, now)
                  && r.value.0.unvestedAmount == Outstanding(v, now)
                  && r.value.1.toCreator + r.value.1.toProtocol == VestedAmount(v, now) - v.totalReleased
                  && IsFloor(r.value.1.toProtocol,
                             (VestedAmount(v, now) - v.totalReleased) * v.protocolFeeShareBps, BPS))
  {
    var settled := Checkpoint(v, now);
    ShareOfWhole(settled.vestedUnreleased, v.protocolFeeShareBps, BPS);
  }

  /** What a lock does to the books: arrived tokens are added, and what has vested stays. */
  lemma LockAdds(s: State, authorized: bool, amount: nat, received: nat, terms: Terms)
    requires Inv(s)
    ensures var r := Lock(s, authorized, amount, received, terms);
            && r != Failure(Underflow)
            && (r.Success? ==>
                  && Inv(r.value)
                  && VestedAmount(r.value.vest, s.now) == VestedAmount(s.vest, s.now)
                  && r.value.held == s.held + (if amount == 0 then 0 else received)
                  && r.value.vest.totalLocked == s.vest.totalLocked + (if amount == 0 then 0 else received))
  {
    LockKeeps(s.vest, s.now, authorized, amount, received, terms);
  }

  /** What a beneficiary's release does to the books and to the vault's balance. */
  lemma ReleasePays(s: State, caller: Address)
    requires Inv(s)
    ensures var r := Release(s, caller);
            && (r.Success? <==> caller == s.vest.creatorRecipient || caller == s.vest.protocolRecipient)
            && (r.Success? ==>
                  && Inv(r.value.0)
                  && r.value.1.toCreator + r.value.1.toProtocol
                     == VestedAmount(s.vest, s.now) - s.vest.totalReleased
                     == s.held - r.value.0.held
                  && IsFloor(r.value.1.toProtocol,
                             (r.value.1.toCreator + r.value.1.toProtocol) * s.vest.protocolFeeShareBps, BPS)
                  && r.value.0.toCreator == s.toCreator + r.value.1.toCreator
                  && r.value.0.toProtocol == s.toProtocol + r.value.1.toProtocol
                  && VestedAmount(r.value.0.vest, s.now) == r.value.0.vest.totalReleased)
  {
    ReleaseKeeps(s.vest, s.now, caller);
  }

  // ---- Runs ----

  lemma StepKeeps(s: State, op: Op)
    requires Inv(s)
    ensures var t := Step(s, op);
            && Inv(t) && s.now <= t.now
            && VestedAmount(s.vest, s.now) <= VestedAmount(t.vest, t.now)
            && s.vest.totalReleased <= t.vest.totalReleased
            && Attempt(s, op) != Failure(Underflow)
  {
    match op
    case OpLock(authorized, amount, received, terms) =>
      LockKeeps(s.vest, s.now, authorized, amount, received, terms);
    case OpRelease(caller) =>
      ReleaseKeeps(s.vest, s.now, caller);
      ReleasePays(s, caller);
    case OpWait(seconds) => VestedGrowsWithTime(s.vest, s.now, s.now + seconds);
    case _ =>
  }

  /** Over any run the books balance, what has vested never shrinks and nothing underflows. */
  lemma {:induction false} RunKeeps(s: State, ops: seq<Op>)
    requires Inv(s)
    ensures var t := Run(s, ops);
            && Inv(t) && s.now <= t.now
            && VestedAmount(s.vest, s.now) <= VestedAmount(t.vest, t.now)
    decreases |ops|
  {
    if ops != [] {
      StepKeeps(s, ops[0]);
      RunKeeps(Step(s, ops[0]), ops[1..]);
    }
  }

  /** From the empty vest: every token ever locked is released, vested or still vesting, and backed by the vault. */
  lemma LockedTokensAccountedFor(start: nat, ops: seq<Op>, op: Op)
    requires VESTING_DURATION <= start
    ensures var s := Run(State(NO_VEST, 0, start, 0, 0), ops);
            && s.vest.totalLocked == s.vest.totalReleased + s.vest.vestedUnreleased + s.vest.unvestedAmount
            && s.toCreator + s.toProtocol == s.vest.totalReleased
            && s.vest.totalLocked - s.vest.totalReleased <= s.held
            && (0 < s.vest.unvestedAmount ==>
                  s.vest.lastUpdate < s.vest.vestingEnd <= s.vest.lastUpdate + VESTING_DURATION)
            && Attempt(s, op) != Failure(Underflow)
  {
    RunKeeps(State(NO_VEST, 0, start, 0, 0), ops);
    StepKeeps(Run(State(NO_VEST, 0, start, 0, 0), ops), op);
  }

  // ---- The straight line ----

  /** The releases in a run. */
  function Releases(ops: seq<Op>): nat {
    if ops == [] then 0 else (if ops[0].OpRelease? then 1 else 0) + Releases(ops[1..])
  }

  ghost predicate NoLocks(ops: seq<Op>) {
    forall i :: 0 <= i < |ops| ==> !ops[i].OpLock?
  }

  /**
   `u` tokens outstanding with `left` seconds to go, when `u0` were outstanding with `left0` to go and `k` floors
   were taken in between: on or above the line, by at most k * (left0 - 1) / left0 tokens, which is under k.
   */
  ghost predicate NearLine(u0: nat, left0: nat, u: nat, left: nat, k: nat)
    requires 0 < left0
  {
    u0 * left <= u * left0 <= u0 * left + k * (left0 - 1)
  }

  /** One more floored checkpoint adds at most one unit of lag. */
  lemma LineStep(u0: nat, left0: nat, v: Vest, now: nat, k: nat)
    requires 0 < left0 && v.lastUpdate <= now < v.vestingEnd && v.vestingEnd - v.lastUpdate <= left0
    requires NearLine(u0, left0, v.unvestedAmount, v.vestingEnd - v.lastUpdate, k)
    ensures NearLine(u0, left0, Outstanding(v, now), v.vestingEnd - now, k + 1)
  {
    var u, e, e', u' := v.unvestedAmount, v.vestingEnd - v.lastUpdate, v.vestingEnd - now, Outstanding(v, now);
    OneFloor(v, now);
    LineStepArithmetic(u0, left0, u, e, u', e', k);
  }

  /** A checkpoint leaves at least the exact remainder of the schedule, by less than one unit more. */
  lemma OneFloor(v: Vest, now: nat)
    requires v.lastUpdate <= now < v.vestingEnd
    ensures var u, e, e', u' := v.unvestedAmount, v.vestingEnd - v.lastUpdate, v.vestingEnd - now, Outstanding(v, now);
            u * e' <= u' * e <= u * e' + (e - 1)
  {
    var u, e, e' := v.unvestedAmount, v.vestingEnd - v.lastUpdate, v.vestingEnd - now;
    if u != 0 && v.lastUpdate < now {
      Distribute(e, e', u);
      Distribute(u, NewlyVested(v, now), e);
    } else if u == 0 {
      assert Outstanding(v, now) == 0;
    } else {
      assert Outstanding(v, now) == u && e == e';
    }
  }

  lemma LineStepArithmetic(u0: nat, left0: nat, u: nat, e: nat, u': nat, e': nat, k: nat)
    requires 0 < left0 && 0 < e <= left0 && e' <= e
    requires NearLine(u0, left0, u, e, k)
    requires u * e' <= u' * e <= u * e' + (e - 1)
    ensures NearLine(u0, left0, u', e', k + 1)
  {
    LineLower(u0, left0, u, e, u', e');
    LineUpper(u0, left0, u, e, u', e', k * (left0 - 1));
    assert (k + 1) * (left0 - 1) == k * (left0 - 1) + (left0 - 1);
  }

  lemma LineLower(u0: nat, left0: nat, u: nat, e: nat, u': nat, e': nat)
    requires 0 < e && u0 * e <= u * left0 && u * e' <= u' * e
    ensures u0 * e' <= u' * left0
  {
    calc {
      u0 * e' * e;
      u0 * e * e';
    <= { MulLe(u0 * e, u * left0, e'); }
      u * left0 * e';
      u * e' * left0;
    <= { MulLe(u * e', u' * e, left0); }
      u' * e * left0;
      u' * left0 * e;
    }
    CancelLe(u0 * e', u' * left0, e);
  }

  lemma LineUpper(u0: nat, left0: nat, u: nat, e: nat, u': nat, e': nat, slack: nat)
    requires 0 < left0 && 0 < e <= left0 && e' <= e
    requires u * left0 <= u0 * e + slack && u' * e <= u * e' + (e - 1)
    ensures u' * left0 <= u0 * e' + slack + (left0 - 1)
  {
    var bound := u0 * e' + slack + (left0 - 1);
    LineUpperProduct(u0, left0, u, e, u', e', slack);
    Distribute(u0 * e' + slack, left0 - 1, e);
    Distribute(u0 * e', slack, e);
    Distribute(left0, 1, e);
    Distribute(e, 1, left0);
    CancelLe(u' * left0, bound, e);
  }

  lemma LineUpperProduct(u0: nat, left0: nat, u: nat, e: nat, u': nat, e': nat, slack: nat)
    requires 0 < left0 && 0 < e && e' <= e
    requires u * left0 <= u0 * e + slack && u' * e <= u * e' + (e - 1)
    ensures u' * left0 * e <= u0 * e' * e + slack * e + (e - 1) * left0
  {
    MulLe(u' * e, u * e' + (e - 1), left0);
    Distribute(u * e', e - 1, left0);
    MulLe(u * left0, u0 * e + slack, e');
    Distribute(u0 * e, slack, e');
    MulLe(e', e, slack);
    Swap(u', e, left0);
    Swap(u, e', left0);
    Swap(u0, e, e');
  }

  lemma Swap(a: int, b: int, c: int)
    ensures a * b * c == a * c * b
  {
  }

  /** A lock-free step keeps the schedule's end and stays near the line, one unit further at most per release. */
  lemma QuietStep(u0: nat, left0: nat, s: State, op: Op, k: nat)
    requires Inv(s) && !op.OpLock? && 0 < left0
    requires Step(s, op).now < s.vest.vestingEnd
    requires s.vest.vestingEnd - s.vest.lastUpdate <= left0
    requires NearLine(u0, left0, s.vest.unvestedAmount, s.vest.vestingEnd - s.vest.lastUpdate, k)
    ensures var t := Step(s, op).vest;
            && t.vestingEnd == s.vest.vestingEnd && s.vest.lastUpdate <= t.lastUpdate <= Step(s, op).now
            && NearLine(u0, left0, t.unvestedAmount, t.vestingEnd - t.lastUpdate, k + (if op.OpRelease? then 1 else 0))
  {
    if op.OpRelease? {
      LineStep(u0, left0, s.vest, s.now, k);
      MulLe(k, k + 1, left0 - 1);
    }
  }

  lemma {:induction false} QuietRun(u0: nat, left0: nat, s: State, ops: seq<Op>, k: nat)
    requires Inv(s) && NoLocks(ops) && 0 < left0
    requires s.vest.lastUpdate <= Run(s, ops).now < s.vest.vestingEnd
    requires s.vest.vestingEnd - s.vest.lastUpdate <= left0
    requires NearLine(u0, left0, s.vest.unvestedAmount, s.vest.vestingEnd - s.vest.lastUpdate, k)
    ensures var t := Run(s, ops).vest;
            && t.vestingEnd == s.vest.vestingEnd && s.vest.lastUpdate <= t.lastUpdate <= Run(s, ops).now
            && NearLine(u0, left0, t.unvestedAmount, t.vestingEnd - t.lastUpdate, k + Releases(ops))
    decreases |ops|
  {
    if ops != [] {
      StepKeeps(s, ops[0]);
      RunKeeps(Step(s, ops[0]), ops[1..]);
      QuietStep(u0, left0, s, ops[0], k);
      QuietRun(u0, left0, Step(s, ops[0]), ops[1..], k + (if ops[0].OpRelease? then 1 else 0));
    }
  }

  /**
   Between two locks, after any releases at any times, what has not vested at a later time `t` is never below the
   exact straight line to vestingEnd and exceeds it by less than one unit per release (plus the one for the reading
   itself). So releases never run ahead of schedule, and frequent releases delay value by at most their number.
   */
  lemma ReleasesTrackTheStraightLine(s: State, ops: seq<Op>, t: nat)
    requires Inv(s) && NoLocks(ops) && 0 < s.vest.unvestedAmount
    requires Run(s, ops).now <= t < s.vest.vestingEnd
    ensures var u0, left0 := s.vest.unvestedAmount, s.vest.vestingEnd - s.vest.lastUpdate;
            var u := Outstanding(Run(s, ops).vest, t);
            && 0 < left0
            && u0 * (s.vest.vestingEnd - t) <= u * left0
            && u * left0 < u0 * (s.vest.vestingEnd - t) + (Releases(ops) + 1) * left0
  {
    RunKeeps(s, ops);
    QuietRun(s.vest.unvestedAmount, s.vest.vestingEnd - s.vest.lastUpdate, s, ops, 0);
    LineRead(s.vest.unvestedAmount, s.vest.vestingEnd - s.vest.lastUpdate, Run(s, ops).vest, t, Releases(ops));
  }

  lemma LineRead(u0: nat, left0: nat, v: Vest, t: nat, k: nat)
    requires 0 < left0 && v.lastUpdate <= t < v.vestingEnd && v.vestingEnd - v.lastUpdate <= left0
    requires NearLine(u0, left0, v.unvestedAmount, v.vestingEnd - v.lastUpdate, k)
    ensures u0 * (v.vestingEnd - t) <= Outstanding(v, t) * left0
    ensures Outstanding(v, t) * left0 < u0 * (v.vestingEnd - t) + (k + 1) * left0
  {
    LineStep(u0, left0, v, t, k);
  }

  /** However it was released, the whole schedule has vested once its end is reached. */
  lemma {:induction false} EverythingVestsAtTheEnd(s: State, ops: seq<Op>)
    requires Inv(s) && NoLocks(ops) && 0 < s.vest.unvestedAmount
    requires s.vest.vestingEnd <= Run(s, ops).now
    ensures Outstanding(Run(s, ops).vest, Run(s, ops).now) == 0
    decreases |ops|
  {
    RunKeeps(s, ops);
    if ops != [] {
      StepKeeps(s, ops[0]);
      var t := Step(s, ops[0]);
      if t.vest.unvestedAmount == 0 {
        NothingLeftToVest(t, ops[1..]);
      } else {
        EverythingVestsAtTheEnd(t, ops[1..]);
      }
    }
  }

  lemma {:induction false} NothingLeftToVest(s: State, ops: seq<Op>)
    requires NoLocks(ops) && s.vest.unvestedAmount == 0
    ensures Run(s, ops).vest.unvestedAmount == 0
    decreases |ops|
  {
    if ops != [] {
      NothingLeftToVest(Step(s, ops[0]), ops[1..]);
    }
  }

  /**
   Over any run without a lock, the protocol's running total is its share of everything released in it, short by
   less than one unit per release; the creator's is all the rest.
   */
  lemma {:induction false} ReleasesSplitByTheShare(s: State, ops: seq<Op>)
    requires Inv(s) && NoLocks(ops)
    ensures var t := Run(s, ops);
            var released, toProtocol := t.vest.totalReleased - s.vest.totalReleased, t.toProtocol - s.toProtocol;
            && toProtocol * BPS <= released * s.vest.protocolFeeShareBps
                                <= toProtocol * BPS + Releases(ops) * (BPS - 1)
            && t.toCreator - s.toCreator == released - toProtocol
            && t.vest.protocolFeeShareBps == s.vest.protocolFeeShareBps
    decreases |ops|
  {
    hide Step, Inv, VestedAmount, NewlyVested;
    if ops != [] {
      var u, share := Step(s, ops[0]), s.vest.protocolFeeShareBps;
      StepKeeps(s, ops[0]);
      QuietStepSplits(s, ops[0]);
      ReleasesSplitByTheShare(u, ops[1..]);
      Distribute(u.vest.totalReleased - s.vest.totalReleased,
                 Run(s, ops).vest.totalReleased - u.vest.totalReleased, share);
    }
  }

  lemma QuietStepSplits(s: State, op: Op)
    requires Inv(s) && !op.OpLock?
    ensures var t := Step(s, op);
            var released, toProtocol := t.vest.totalReleased - s.vest.totalReleased, t.toProtocol - s.toProtocol;
            && toProtocol * BPS <= released * s.vest.protocolFeeShareBps
                                <= toProtocol * BPS + (if op.OpRelease? then BPS - 1 else 0)
            && t.toCreator - s.toCreator == released - toProtocol
            && t.vest.protocolFeeShareBps == s.vest.protocolFeeShareBps
  {
    if op.OpRelease? {
      ReleasePays(s, op.caller);
      ReleaseKeeps(s.vest, s.now, op.caller);
    }
  }

  // ---- Deposits and the pace ----

  /**
   What a lock writes. An open epoch only accepts its own protocol terms; a closed one takes the new ones, and keeps
   a creator's recipient that was already set. The tokens still vesting and the arrived ones then share one schedule
   whose end is the floored size-weighted average away and which starts a full term before that end.
   */
  lemma LockSchedules(v: Vest, now: nat, authorized: bool, amount: nat, received: nat, terms: Terms)
    requires VestInv(v, now) && VESTING_DURATION <= now
    ensures var r := LockVest(v, now, authorized, amount, received, terms);
            var open := v.unvestedAmount != 0 || v.vestedUnreleased != 0;
            && (r.Success? <==>
                  && authorized
                  && (amount != 0 ==> terms.creator != NOBODY && terms.protocol != NOBODY && terms.shareBps <= BPS)
                  && (amount != 0 && received != 0 && open ==>
                        terms.protocol == v.protocolRecipient && terms.shareBps == v.protocolFeeShareBps))
            && (r.Success? && (amount == 0 || received == 0) ==> r.value == v)
            && (r.Success? && amount != 0 && received != 0 ==>
                  var t, unvested := r.value, Outstanding(v, now);
                  && t.unvestedAmount == unvested + received && t.lastUpdate == now
                  && t.vestedUnreleased == v.vestedUnreleased + v.unvestedAmount - unvested
                  && IsFloor(t.vestingEnd - now,
                             (if unvested == 0 then 0 else unvested * (v.vestingEnd - now))
                             + received * 157_680_000, unvested + received)
                  && t.vestingEnd - t.vestingStart == 157_680_000
                  && t.protocolRecipient == terms.protocol && t.protocolFeeShareBps == terms.shareBps
                  && t.creatorRecipient == (if open || v.creatorRecipient != NOBODY then v.creatorRecipient
                                            else terms.creator))
  {
    LockKeeps(v, now, authorized, amount, received, terms);
  }

  /**
   A deposit can slow what was already vesting. With `remaining` seconds left on `unvested` tokens, a deposit of
   `amount` keeps the pace of release (tokens per second) exactly when the averaged seconds stay below one second
   more than the old pace needs for the new total.
   */
  lemma DepositPace(unvested: nat, remaining: nat, amount: nat)
    requires 0 < unvested && 0 < amount
    ensures var w := unvested + amount;
            unvested * CombinedDuration(unvested, remaining, amount) <= w * remaining
            <==> unvested * remaining + amount * VESTING_DURATION < w * (MulDiv(w, remaining, unvested) + 1)
  {
    var w := unvested + amount;
    var duration := CombinedDuration(unvested, remaining, amount);
    FloorAtMost(duration, w * remaining, unvested);
    FloorBelow(unvested * remaining + amount * VESTING_DURATION, w, duration, MulDiv(w, remaining, unvested));
  }

  lemma FloorBelow(total: nat, w: nat, n: nat, q: nat)
    requires n * w <= total < n * w + w
    ensures n <= q <==> total < w * (q + 1)
  {
    Distribute(n, 1, w);
    if n <= q {
      MulLe(n + 1, q + 1, w);
    } else {
      MulLe(q + 1, n, w);
    }
  }

  lemma FloorAtMost(n: nat, total: nat, d: nat)
    requires 0 < d
    ensures d * n <= total <==> n <= total / d
  {
    DivBounds(total, d);
    if d * n <= total {
      Distribute(total / d, 1, d);
      CancelLt(n, total / d + 1, d);
    } else if n <= total / d {
      MulLe(n, total / d, d);
    }
  }

  /** The same, read off a lock that found tokens still vesting. */
  lemma LockPace(v: Vest, now: nat, authorized: bool, amount: nat, received: nat, terms: Terms)
    requires VestInv(v, now) && VESTING_DURATION <= now && 0 < Outstanding(v, now)
    requires amount != 0 && received != 0
    ensures var r := LockVest(v, now, authorized, amount, received, terms);
            var unvested, remaining := Outstanding(v, now), v.vestingEnd - now;
            r.Success? ==>
              && now < v.vestingEnd && now < r.value.vestingEnd
              && r.value.unvestedAmount == unvested + received
              && (unvested * (r.value.vestingEnd - now) <= r.value.unvestedAmount * remaining
                  <==> unvested * remaining + received * VESTING_DURATION
                       < (unvested + received) * (MulDiv(unvested + received, remaining, unvested) + 1))
  {
    LockKeeps(v, now, authorized, amount, received, terms);
    DepositPace(Outstanding(v, now), v.vestingEnd - now, received);
  }

  /**
   A readable form: the pace is kept when remaining * (2 * unvested + amount) reaches unvested * VESTING_DURATION,
   and lowered once that product falls short by the rounding of one second.
   */
  lemma DepositPaceMargin(unvested: nat, remaining: nat, amount: nat)
    requires 0 < unvested && 0 < amount
    ensures var duration := CombinedDuration(unvested, remaining, amount);
            var margin := unvested * VESTING_DURATION - remaining * (2 * unvested + amount);
            && (margin <= 0 ==> unvested * duration <= (unvested + amount) * remaining)
            && (margin * amount >= unvested * (unvested + amount) ==>
                  unvested * duration > (unvested + amount) * remaining)
  {
    var w := unvested + amount;
    var total := unvested * remaining + amount * VESTING_DURATION;
    var duration := CombinedDuration(unvested, remaining, amount);
    var margin := unvested * VESTING_DURATION - remaining * (2 * unvested + amount);
    PaceIdentity(unvested, remaining, amount, VESTING_DURATION);
    PaceBounds(unvested, duration, w, total);
    if margin <= 0 {
      MulLe(margin, 0, amount);
      CancelLe(unvested * duration, w * remaining, w);
    }
    if margin * amount >= unvested * w {
      CancelLt(w * remaining, unvested * duration, w);
    }
  }

  lemma PaceIdentity(u: nat, r: nat, a: nat, full: nat)
    ensures u * (u * r + a * full) - (u + a) * r * (u + a) == (u * full - r * (2 * u + a)) * a
  {
    assert u * (u * r + a * full) == u * u * r + u * a * full;
    assert (u + a) * r * (u + a) == u * u * r + 2 * u * a * r + a * a * r;
    assert (u * full - r * (2 * u + a)) * a == u * a * full - 2 * u * a * r - a * a * r;
  }

  lemma PaceBounds(unvested: nat, duration: nat, w: nat, total: nat)
    requires duration * w <= total < duration * w + w && 0 < unvested
    ensures unvested * duration * w <= unvested * total < unvested * duration * w + unvested * w
  {
    MulLe(duration * w, total, unvested);
    MulLe(total + 1, duration * w + w, unvested);
    assert unvested * (duration * w + w) == unvested * duration * w + unvested * w;
    assert unvested * (total + 1) == unvested * total + unvested;
  }

}
