/** When a stream direction terminates and when it discards, in terms of the compiled plan. */
module StreamTerminations {
  import opened Common
  import opened StreamPlan
  import opened StreamEngine
  import opened StreamProofs
  import opened StreamRuns
  import opened StreamCompile

  // --- Due terminations ---

  ghost predicate DisconnectDue(c: Config, at: nat) {
    c.disconnect.Some? && c.disconnect.value.deadline <= at
  }

  ghost predicate CloseDue(c: Config, at: nat) {
    c.blackhole.Some? && c.blackhole.value.deadline.Some? && c.blackhole.value.deadline.value <= at
  }

  /** Refreshing terminates exactly if a disconnect or the close of a finite blackhole is due, in this order
      of preference, and never replaces an earlier termination. */
  lemma {:induction false} RefreshMeans(c: Config, s: Engine, at: nat)
    requires s.handle == s.termination
    ensures var t := Refresh(c, s, at);
            && t == s.(termination := t.termination, handle := t.termination)
            && (s.termination.Some? ==> t.termination == s.termination)
            && (s.termination.None? ==> (t.termination.Some? <==> DisconnectDue(c, at) || CloseDue(c, at)))
            && (s.termination.None? && DisconnectDue(c, at) ==>
                  t.termination.value == TerminationInfo(if c.disconnect.value.hardReset then HardReset else Graceful,
                                                         c.direction, c.disconnect.value.faultId))
            && (s.termination.None? && !DisconnectDue(c, at) && CloseDue(c, at) ==>
                  t.termination.value == TerminationInfo(Graceful, c.direction, c.blackhole.value.faultId))
  {
  }

  ghost predicate Exhausted(s: Engine) { s.limit.Some? && s.limit.value.remaining == 0 }

  /** A live direction is terminated by an acceptance exactly if a disconnect or close was due, or its byte
      limit is now exhausted; the limit's own fault is then named. */
  lemma {:induction false} WhyTerminated(c: Config, t: Trace, input: seq<Byte>, clock: Clock)
    requires Inv(c, t) && t.s.termination.None?
    ensures var s := Accept(c, t.s, input, clock).0;
            && (s.termination.Some? <==> DisconnectDue(c, clock.due) || CloseDue(c, clock.due) || Exhausted(s))
            && (s.termination.Some? && !DisconnectDue(c, clock.due) && !CloseDue(c, clock.due) ==>
                  s.termination.value == TerminationInfo(Graceful, c.direction, s.limit.value.id))
  {
    AcceptKeeps(c, t, input, clock);
    RefreshMeans(c, t.s, clock.due);
    var r := Refresh(c, t.s, clock.due);
    var s := Accept(c, t.s, input, clock).0;
    assert !Exhausted(t.s);
    if input != [] && r.termination.None? {
      SettledOnly(c, r, input, clock);
    } else if input != [] {
      SettledKeeps(c, r, input, clock);
    }
  }

  /** What acceptance settles, past the due terminations. */
  ghost function Taken(c: Config, s: Engine, input: seq<Byte>, clock: Clock): (Engine, nat) {
    if Discarding(c, clock.discard) then AcceptDiscarding(c, s, |input|)
    else if HasLoss(s.loss) then AcceptLossy(c, s, input, clock.now)
    else AcceptPreserving(c, s, input, clock.now)
  }

  lemma {:induction false} SettleMeans(c: Config, s: Engine, p: Pipe, l: Loss, n: nat, d: nat, lost: nat)
    requires !Exhausted(s)
    ensures var t := Settle(c, s.(pipe := p, loss := l), n, d, lost);
            && (Exhausted(t) ==> t.termination.Some?)
            && (s.termination.Some? ==> t.termination == s.termination)
            && (s.termination.None? ==> (t.termination.Some? <==> Exhausted(t)))
            && (s.termination.None? && Exhausted(t) ==>
                  t.termination.value == TerminationInfo(Graceful, c.direction, t.limit.value.id))
  {
  }

  lemma {:induction false} TakenMeans(c: Config, s: Engine, input: seq<Byte>, clock: Clock)
    requires !Exhausted(s)
    ensures var t := Taken(c, s, input, clock).0;
            && (s.termination.Some? ==> t.termination == s.termination)
            && (s.termination.None? ==> (t.termination.Some? <==> Exhausted(t)))
            && (s.termination.None? && Exhausted(t) ==>
                  t.termination.value == TerminationInfo(Graceful, c.direction, t.limit.value.id))
  {
    var cap := WithinLimit(s, |input|);
    if Discarding(c, clock.discard) {
      SettleMeans(c, s, s.pipe.(work := s.pipe.work.(segments := s.pipe.work.segments + 1)), s.loss, cap, cap, 0);
    } else if HasLoss(s.loss) {
      var k := Classify(c, s.pipe, s.loss, input[..cap], clock.now);
      SettleMeans(c, s, k.pipe, k.loss, k.taken, k.discarded, k.discarded);
    } else {
      var room: nat := Min(cap, Minus(c.maxBuffer, s.pipe.buffered));
      var (p, n) := PushRun(c, s.pipe, input[..room], clock.now);
      SettleMeans(c, s, p, s.loss, n, 0, 0);
    }
  }

  lemma {:induction false} SettledOnly(c: Config, r: Engine, input: seq<Byte>, clock: Clock)
    requires !Exhausted(r) && r.termination.None?
    ensures var t := Taken(c, r, input, clock).0;
            && (t.termination.Some? <==> Exhausted(t))
            && (Exhausted(t) ==> t.termination.value == TerminationInfo(Graceful, c.direction, t.limit.value.id))
  {
    TakenMeans(c, r, input, clock);
  }

  lemma {:induction false} SettledKeeps(c: Config, r: Engine, input: seq<Byte>, clock: Clock)
    requires !Exhausted(r) && r.termination.Some?
    ensures Taken(c, r, input, clock).0.termination == r.termination
  {
    TakenMeans(c, r, input, clock);
  }

  // --- In terms of the plan ---

  /** A disconnect is due exactly if some active disconnect fault's time has come. */
  lemma {:induction false} DisconnectMeans(faults: seq<FaultSpec>, seeds: Seeds, direction: Direction, start: nat,
                                           at: nat)
    ensures DisconnectDue(ConfigOf(faults, seeds, direction, start), at)
       <==> exists f <- faults :: f.kind.Disconnect? && Drawn(seeds, f) && start + f.kind.after <= at
  {
    CompiledMerges(faults, seeds, direction, start);
    var c := ConfigOf(faults, seeds, direction, start);
    if DisconnectDue(c, at) {
      var f :| f in faults && f.kind.Disconnect? && Drawn(seeds, f)
               && c.disconnect.value == DisconnectState(start + f.kind.after, f.kind.hardReset, f.id);
    }
  }

  /** The direction discards exactly while some active blackhole never closes, or one is active and none has
      reached its close. */
  lemma {:induction false} DiscardingMeans(faults: seq<FaultSpec>, seeds: Seeds, direction: Direction, start: nat,
                                           at: nat)
    ensures Discarding(ConfigOf(faults, seeds, direction, start), at)
       <==> || (exists f <- faults :: f.kind.Blackhole? && Drawn(seeds, f) && f.kind.closeAfter.None?)
            || ((exists f <- faults :: f.kind.Blackhole? && Drawn(seeds, f))
                && (forall f <- faults :: f.kind.Blackhole? && Drawn(seeds, f) && f.kind.closeAfter.Some? ==>
                      at < start + f.kind.closeAfter.value))
  {
    CompiledMerges(faults, seeds, direction, start);
    var c := ConfigOf(faults, seeds, direction, start);
    if c.blackhole.Some? {
      var f :| f in faults && f.kind.Blackhole? && Drawn(seeds, f)
               && c.blackhole.value == BlackholeState(CloseAt(start, f.kind.closeAfter), f.id);
    }
  }

  /** While discarding, everything within the byte limit is taken and nothing of it queued; the wire never
      sees it. */
  lemma {:induction false} BlackholeSwallows(c: Config, t: Trace, input: seq<Byte>, clock: Clock)
    requires Inv(c, t) && input != [] && Discarding(c, clock.discard) && !Exhausted(t.s)
    ensures var (s, n) := Accept(c, t.s, input, clock);
            && n == (if c.limit.Some? then Min(|input|, t.s.limit.value.remaining) else |input|) && n > 0
            && s.pipe.queue == t.s.pipe.queue && s.ledger.discarded == t.s.ledger.discarded + n
            && s.ledger.accepted == t.s.ledger.accepted + n
  {
    RefreshKeeps(c, t, clock.due);
  }

  /** Outside a blackhole and without stream loss nothing is ever discarded. */
  lemma {:induction false} NothingDiscarded(c: Config, t: Trace, input: seq<Byte>, clock: Clock)
    requires Inv(c, t) && !Discarding(c, clock.discard) && !HasLoss(t.s.loss)
    ensures Accept(c, t.s, input, clock).0.ledger.discarded == t.s.ledger.discarded
  {
    RefreshKeeps(c, t, clock.due);
  }
}
