/** Datagram fault plans and their validation (datagram.rs, `DatagramPlan`). */
module DatagramPlan {
  import opened Common

  datatype Kind =
    | Delay(delay: nat, jitter: nat)
    | Loss
    | Duplicate(additionalCopies: nat)
    | Reorder(hold: nat)
    | PayloadCorrupt(bytes: pos)
    | Bandwidth(rate: pos, burst: pos)

  datatype Fault = Fault(id: string, probability: real, kind: Kind)

  datatype PlanError =
    | TooManyStages
    | BadId
    | BadProbability
    | DuplicateId
    | BadCopyCount
    | TooMuchAmplification
    | DelayTooLong
    | HoldTooLong

  const MAX_STAGES := 256
  const MAX_CANDIDATES := 4096
  const DAY_NANOS: nat := 86_400 * 1_000_000_000

  /** How many candidates one stage can make of one. */
  function Factor(kind: Kind): pos {
    if kind.Duplicate? then kind.additionalCopies + 1 else 1
  }

  /** How many candidates the stages can make of one datagram. */
  function Amplification(plan: seq<Fault>): nat {
    if plan == [] then 1 else Amplification(plan[..|plan| - 1]) * Factor(plan[|plan| - 1].kind)
  }

  predicate ValidKind(kind: Kind) {
    match kind
    case Duplicate(copies) => 1 <= copies <= 16
    case Delay(delay, jitter) => delay <= DAY_NANOS && jitter <= DAY_NANOS
    case Reorder(hold) => hold <= DAY_NANOS
    case _ => true
  }

  predicate ValidFault(f: Fault) {
    1 <= |f.id| <= 128 && 0.0 <= f.probability <= 1.0 && ValidKind(f.kind)
  }

  predicate DistinctIds(plan: seq<Fault>) {
    forall i, j :: 0 <= i < j < |plan| ==> plan[i].id != plan[j].id
  }

  predicate ValidPlan(plan: seq<Fault>) {
    && |plan| <= MAX_STAGES
    && (forall i :: 0 <= i < |plan| ==> ValidFault(plan[i]))
    && DistinctIds(plan)
    && Amplification(plan) <= MAX_CANDIDATES
  }

  lemma {:induction false} AmplificationGrows(plan: seq<Fault>, k: nat)
    requires k <= |plan|
    ensures 1 <= Amplification(plan[..k]) <= Amplification(plan)
    decreases |plan|
  {
    if k == |plan| {
      assert plan[..k] == plan;
      if plan != [] {
        AmplificationGrows(plan[..k - 1], k - 1);
        assert plan[..k - 1][..k - 1] == plan[..k - 1];
        ProductGrows(Amplification(plan[..k - 1]), Factor(plan[k - 1].kind));
      }
    } else {
      var rest := plan[..|plan| - 1];
      assert rest[..k] == plan[..k];
      AmplificationGrows(rest, k);
      ProductGrows(Amplification(rest), Factor(plan[|plan| - 1].kind));
    }
  }

  lemma {:induction false} ProductGrows(a: pos, f: pos)
    ensures a <= a * f
  {
    if f > 1 {
      ProductGrows(a, f - 1);
      assert a * f == a * (f - 1) + a;
    }
  }

  /** The checks on one fault's kind, with the candidates it may make of those before it. */
  method CheckKind(kind: Kind, candidates: nat) returns (error: Option<PlanError>, next: nat)
    ensures next == candidates * Factor(kind)
    ensures error.None? <==> ValidKind(kind) && (kind.Duplicate? ==> next <= MAX_CANDIDATES)
    ensures error == Some(TooMuchAmplification) <==> kind.Duplicate? && ValidKind(kind) && next > MAX_CANDIDATES
  {
    error, next := None, candidates;
    match kind {
      case Duplicate(copies) =>
        next := candidates * (copies + 1);
        if copies == 0 || copies > 16 {
          error := Some(BadCopyCount);
        } else if next > MAX_CANDIDATES {
          error := Some(TooMuchAmplification);
        }
      case Delay(delay, jitter) =>
        if delay > DAY_NANOS || jitter > DAY_NANOS {
          error := Some(DelayTooLong);
        }
      case Reorder(hold) =>
        if hold > DAY_NANOS {
          error := Some(HoldTooLong);
        }
      case _ =>
    }
  }

  /** The ids seen are exactly those of the faults passed so far, all different. */
  ghost predicate Seen(plan: seq<Fault>, ids: set<string>) {
    && (forall k :: 0 <= k < |plan| ==> plan[k].id in ids && ValidFault(plan[k]))
    && (forall x <- ids :: exists k :: 0 <= k < |plan| && plan[k].id == x)
    && DistinctIds(plan)
  }

  lemma {:induction false} SeenStep(plan: seq<Fault>, ids: set<string>, f: Fault)
    requires Seen(plan, ids) && f.id !in ids && ValidFault(f)
    ensures Seen(plan + [f], ids + {f.id})
  {
    var more := plan + [f];
    forall x | x in ids + {f.id} ensures exists k :: 0 <= k < |more| && more[k].id == x {
      if x == f.id {
        assert more[|plan|].id == x;
      } else {
        var k :| 0 <= k < |plan| && plan[k].id == x;
        assert more[k].id == x;
      }
    }
  }

  lemma {:induction false} SeenTwice(plan: seq<Fault>, i: nat, ids: set<string>)
    requires i < |plan| && Seen(plan[..i], ids) && plan[i].id in ids
    ensures !ValidPlan(plan)
  {
    var k :| 0 <= k < i && plan[..i][k].id == plan[i].id;
    assert plan[k].id == plan[i].id;
  }

  /** The validation pass accepts exactly the valid plans. The running amplification check rejects
      as soon as a prefix is too large, which never rejects a plan whose product is in bounds. */
  method Validate(plan: seq<Fault>) returns (error: Option<PlanError>)
    ensures error.None? <==> ValidPlan(plan)
  {
    if |plan| > MAX_STAGES {
      return Some(TooManyStages);
    }
    var ids: set<string> := {};
    var candidates: nat := 1;
    for i := 0 to |plan|
      invariant Seen(plan[..i], ids)
      invariant candidates == Amplification(plan[..i]) <= MAX_CANDIDATES
    {
      var f := plan[i];
      assert plan[..i + 1] == plan[..i] + [f] && plan[..i + 1][..i] == plan[..i];
      AmplificationGrows(plan, i + 1);
      if |f.id| == 0 || |f.id| > 128 {
        return Some(BadId);
      }
      if !(0.0 <= f.probability <= 1.0) {
        return Some(BadProbability);
      }
      if f.id in ids {
        SeenTwice(plan, i, ids);
        return Some(DuplicateId);
      }
      error, candidates := CheckKind(f.kind, candidates);
      if error.Some? {
        assert !ValidFault(f) || Amplification(plan[..i + 1]) > MAX_CANDIDATES;
        return;
      }
      SeenStep(plan[..i], ids, f);
      ids := ids + {f.id};
    }
    assert plan[..|plan|] == plan;
    error := None;
  }
}
