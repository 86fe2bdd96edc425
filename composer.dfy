/**
 * The priority composer of the Live2D animators: a list of
 * (priority, animator) entries in ascending priority order, ticked from
 * the last entry to the first, whose writes are then applied to the
 * model's parameter store.
 */
module Composer {
  import opened AnimationMath
  import opened Animators
  import opened Wrappers

  /** The most random draws one animator takes in one tick. */
  const MaxDraws: nat := 8

  /** The animators the composer drives. */
  datatype Animator =
    | LipSync(lipSync: LipSyncAnimator)
    | Blink(blink: BlinkAnimator)
    | EyeBall(eyeBall: EyeBallAnimator)
    | Angle(angle: AngleAnimator)
    | BodyAngle(body: BodyAngleAnimator)
    | Expression(expression: ExpressionAnimator)
  {
    /** The object whose fields a tick changes. */
    function Obj(): object
    {
      match this
      case LipSync(a) => a
      case Blink(a) => a
      case EyeBall(a) => a
      case Angle(a) => a
      case BodyAngle(a) => a
      case Expression(a) => a
    }

    /** The fields of that object. */
    ghost function State(): AnimatorState
      reads Obj()
    {
      match this
      case LipSync(a) => LipSyncS(a.State())
      case Blink(a) => BlinkS(a.State())
      case EyeBall(a) => EyeBallS(a.State())
      case Angle(a) => AngleS(a.State())
      case BodyAngle(a) => BodyS(a.State())
      case Expression(a) => ExpressionS(a.State())
    }

    ghost predicate Valid()
      reads Obj()
    {
      StateValid(State())
    }

    /** The animator whose position a tick reads: the eyes for the head, the head for
      the body. */
    function PeerObjs(): set<object>
    {
      match this
      case Angle(a) => {a.eyeBallAnimator}
      case BodyAngle(a) => {a.angleAnimator}
      case _ => {}
    }

    /** The position a tick reads from the peer: the eyes' X and Y for the head, the
        head's X angle for the body. */
    ghost function PeerPos(): (real, real)
      reads PeerObjs()
    {
      match this
      case Angle(a) => (a.eyeBallAnimator.X, a.eyeBallAnimator.Y)
      case BodyAngle(a) => (a.angleAnimator.X, 0.0)
      case _ => (0.0, 0.0)
    }
  }

  /** Two entries naming the same object are the same animator. */
  lemma ObjInjective(a: Animator, b: Animator)
    requires a.Obj() == b.Obj()
    ensures a == b
  {
  }

  /** No animator, and no animator one reads, is the noise source or its table. */
  lemma NotNoise(a: Animator, noise: SimpleNoise)
    ensures a.Obj() != noise && a.Obj() != noise.permutation
    ensures noise !in a.PeerObjs() && noise.permutation !in a.PeerObjs()
  {
  }

  /** The position an animator reads is kept when no object it reads from changed. */
  twostate lemma PeerPosKept(a: Animator)
    requires forall o :: o in a.PeerObjs() ==> unchanged(o)
    ensures a.PeerPos() == old(a.PeerPos())
  {
  }

  /** An animator is never the composer. */
  lemma NotComposer(a: Animator, c: Live2dAnimator)
    ensures a.Obj() != c
  {
  }

  /** An animator never reads its own position. */
  lemma PeerNotSelf(a: Animator)
    ensures a.Obj() !in a.PeerObjs()
  {
  }

  /** The fields of whichever animator an entry holds. */
  datatype AnimatorState =
    | LipSyncS(lipSync: LipSyncState)
    | BlinkS(blink: BlinkState)
    | EyeBallS(eyeBall: EyeBallState)
    | AngleS(angle: AngleState)
    | BodyS(body: BodyState)
    | ExpressionS(expression: ExpressionState)

  /** Each animator's own invariant. */
  ghost predicate StateValid(s: AnimatorState)
  {
    match s
    case BlinkS(x) => BlinkValid(x)
    case EyeBallS(x) => EyeBallValid(x)
    case AngleS(x) => AngleValid(x)
    case _ => true
  }

  /** Whether the tick reads the noise table. */
  predicate UsesTable(s: AnimatorState, now: real)
    requires s.AngleS? ==> s.angle.interval > 0.0
  {
    s.AngleS? && UsesNoise(s.angle, now)
  }

  /** One tick of whichever animator it is, its new state and its answer; `peer` is the
      position it reads from its peer and `table` the noise table. */
  function Step(s: AnimatorState, now: real, m: MathLib, d: seq<real>, peer: (real, real), table: seq<int>)
    : (AnimatorState, seq<ParameterUpdate>)
    requires StateValid(s) && Draws(d, MaxDraws) && |table| == 512
  {
    match s
    case LipSyncS(x) => var (n, r) := LipSyncStep(x); (LipSyncS(n), r)
    case BlinkS(x) => var (n, r) := BlinkStep(x, now, m, d); (BlinkS(n), r)
    case EyeBallS(x) => var (n, r) := EyeBallStep(x, now, m, d); (EyeBallS(n), r)
    case AngleS(x) => var (n, r) := AngleStep(x, now, m, d, peer, table); (AngleS(n), r)
    case BodyS(x) => var (n, r) := BodyStep(x, now, m, peer.0); (BodyS(n), r)
    case ExpressionS(x) => var (n, r) := ExpressionStep(x, now, m); (ExpressionS(n), r)
  }

  /** A tick keeps the animator's invariant and its kind; only a head tick that reads
      the noise table depends on the table. */
  lemma StepValid(s: AnimatorState, now: real, m: MathLib, d: seq<real>, peer: (real, real), t1: seq<int>, t2: seq<int>)
    requires StateValid(s) && m.Valid() && Draws(d, MaxDraws) && |t1| == 512 && |t2| == 512
    ensures var n := Step(s, now, m, d, peer, t1).0;
            && StateValid(n)
            && (n.LipSyncS? == s.LipSyncS?) && (n.BlinkS? == s.BlinkS?) && (n.EyeBallS? == s.EyeBallS?)
            && (n.AngleS? == s.AngleS?) && (n.BodyS? == s.BodyS?) && (n.ExpressionS? == s.ExpressionS?)
    ensures !UsesTable(s, now) ==> Step(s, now, m, d, peer, t1) == Step(s, now, m, d, peer, t2)
  {
    match s
    case BlinkS(x) => BlinkStepValid(x, now, m, d);
    case EyeBallS(x) => EyeBallStepValid(x, now, m, d);
    case AngleS(x) =>
      AngleStepValid(x, now, m, d, peer, t1);
      if !UsesNoise(x, now) {
        AngleStepIgnoresTable(x, now, m, d, peer, t1, t2);
      }
    case _ =>
  }

  /** animator.update(): one tick of whichever animator it is. Every animator answers:
      its new state and its writes are the Step of its old state, with its peer's
      position before the tick and the noise table after it. */
  method Tick(a: Animator, now: real, m: MathLib, draws: seq<real>, noise: SimpleNoise, noiseDraws: seq<real>)
    returns (r: Option<seq<ParameterUpdate>>)
    requires a.Valid() && m.Valid() && Draws(draws, MaxDraws) && noise.Valid() && Draws(noiseDraws, 255)
    modifies a.Obj(), noise, noise.permutation
    ensures a.Valid() && noise.Valid()
    ensures old(noise.initialized) ==> noise.initialized && noise.permutation[..] == old(noise.permutation[..])
    ensures UsesTable(old(a.State()), now) ==> noise.initialized
    ensures r.Some?
    ensures (a.State(), r.value) == Step(old(a.State()), now, m, draws, old(a.PeerPos()), noise.permutation[..])
  {
    match a
    case LipSync(x) =>
      var u := x.Update();
      r := Some(u);
    case Blink(x) =>
      var u := x.Update(now, m, draws);
      r := Some(u);
    case EyeBall(x) =>
      var u := x.Update(now, m, draws);
      r := Some(u);
    case Angle(x) =>
      var u := x.Update(now, m, draws, noise, noiseDraws);
      r := Some(u);
    case BodyAngle(x) =>
      var u := x.Update(now, m);
      r := Some(u);
    case Expression(x) =>
      var u := x.Update(now, m);
      r := Some(u);
  }

  /** A tick seen from a list of entries: an entry holding another animator keeps its
      state, and an entry that does not read the ticked animator keeps the position it
      reads. */
  method TickWatched(a: Animator, L: seq<Entry>, now: real, m: MathLib, draws: seq<real>, noise: SimpleNoise,
                     noiseDraws: seq<real>)
    returns (r: Option<seq<ParameterUpdate>>)
    requires a.Valid() && m.Valid() && Draws(draws, MaxDraws) && noise.Valid() && Draws(noiseDraws, 255)
    modifies a.Obj(), noise, noise.permutation
    ensures a.Valid() && noise.Valid()
    ensures old(noise.initialized) ==> noise.initialized && noise.permutation[..] == old(noise.permutation[..])
    ensures UsesTable(old(a.State()), now) ==> noise.initialized
    ensures r.Some?
    ensures (a.State(), r.value) == Step(old(a.State()), now, m, draws, old(a.PeerPos()), noise.permutation[..])
    ensures forall k :: 0 <= k < |L| && L[k].animator.Obj() != a.Obj() ==>
              L[k].animator.State() == old(L[k].animator.State())
    ensures forall k :: 0 <= k < |L| && a.Obj() !in L[k].animator.PeerObjs() ==>
              L[k].animator.PeerPos() == old(L[k].animator.PeerPos())
  {
    r := Tick(a, now, m, draws, noise, noiseDraws);
    forall k | 0 <= k < |L| && L[k].animator.Obj() != a.Obj()
      ensures L[k].animator.State() == old(L[k].animator.State())
    {
      NotNoise(L[k].animator, noise);
    }
    forall k | 0 <= k < |L| && a.Obj() !in L[k].animator.PeerObjs()
      ensures L[k].animator.PeerPos() == old(L[k].animator.PeerPos())
    {
      NotNoise(L[k].animator, noise);
      PeerPosKept(L[k].animator);
    }
  }

  datatype Entry = Entry(priority: int, animator: Animator)

  /** Priorities never decrease along the list. */
  ghost predicate SortedAsc(s: seq<Entry>)
  {
    forall i, j :: 0 <= i < j < |s| ==> s[i].priority <= s[j].priority
  }

  /** The first position whose priority is at least p, or |s| when there is none. */
  function FirstAtLeast(s: seq<Entry>, p: int): (n: nat)
    ensures n <= |s|
    ensures forall k :: 0 <= k < n ==> s[k].priority < p
    ensures n < |s| ==> s[n].priority >= p
  {
    if s == [] || s[0].priority >= p then 0 else 1 + FirstAtLeast(s[1..], p)
  }

  /** Inserting at FirstAtLeast keeps an ascending list ascending, with the new entry
      ahead of every entry of equal priority. */
  lemma InsertKeepsAscending(s: seq<Entry>, e: Entry)
    requires SortedAsc(s)
    ensures var n := FirstAtLeast(s, e.priority);
            var t := s[..n] + [e] + s[n..];
            && SortedAsc(t)
            && forall k :: n < k < |t| ==> e.priority <= t[k].priority
  {
    var n := FirstAtLeast(s, e.priority);
    var t := s[..n] + [e] + s[n..];
    assert |t| == |s| + 1 && t[n] == e;
    forall i, j | 0 <= i < j < |t| ensures t[i].priority <= t[j].priority {
      if j < n {
        assert t[i] == s[i] && t[j] == s[j];
      } else if j == n {
        assert t[i] == s[i];
      } else if i < n {
        assert t[i] == s[i] && t[j] == s[j - 1];
      } else if i == n {
        assert t[j] == s[j - 1] && s[n].priority <= s[j - 1].priority;
      } else {
        assert t[i] == s[i - 1] && t[j] == s[j - 1];
      }
    }
    forall k | n < k < |t| ensures e.priority <= t[k].priority {
      assert t[k] == s[k - 1] && s[n].priority <= s[k - 1].priority;
    }
  }


  /** What a tick collected: its writes, or none for a finished animator. */
  function Payload(o: Option<seq<ParameterUpdate>>): seq<ParameterUpdate>
  {
    if o.Some? then o.value else []
  }

  /** The entries whose tick did not answer null, in their order. */
  function Survivors(s: seq<Entry>, outcomes: seq<Option<seq<ParameterUpdate>>>): (r: seq<Entry>)
    requires |s| == |outcomes|
    ensures |r| <= |s|
    ensures forall e :: e in r ==> e in s
  {
    if s == [] then []
    else (if outcomes[0].Some? then [s[0]] else []) + Survivors(s[1..], outcomes[1..])
  }

  /** Removing finished entries keeps the list ascending. */
  lemma {:induction false} SurvivorsAscending(s: seq<Entry>, outcomes: seq<Option<seq<ParameterUpdate>>>)
    requires |s| == |outcomes| && SortedAsc(s)
    ensures SortedAsc(Survivors(s, outcomes))
  {
    if s != [] {
      SurvivorsAscending(s[1..], outcomes[1..]);
      var rest := Survivors(s[1..], outcomes[1..]);
      forall e | e in rest ensures s[0].priority <= e.priority {
        var k :| 0 <= k < |s[1..]| && s[1..][k] == e;
        assert s[k + 1] == e;
      }
    }
  }

  /** When every tick answered, nothing is removed. */
  lemma {:induction false} SurvivorsAll(s: seq<Entry>, outcomes: seq<Option<seq<ParameterUpdate>>>)
    requires |s| == |outcomes| && forall k :: 0 <= k < |outcomes| ==> outcomes[k].Some?
    ensures Survivors(s, outcomes) == s
  {
    if s != [] {
      SurvivorsAll(s[1..], outcomes[1..]);
      assert s == [s[0]] + s[1..];
    }
  }

  /** The writes of the ticks, in the order update collects them: the last entry's
      first, the first entry's last. */
  function Collected(outcomes: seq<Option<seq<ParameterUpdate>>>): seq<ParameterUpdate>
  {
    if outcomes == [] then [] else Collected(outcomes[1..]) + Payload(outcomes[0])
  }

  /** Answering entry i extends the writes collected from the entries above it. */
  lemma CollectedStep(outcomes: seq<Option<seq<ParameterUpdate>>>, i: nat, r: Option<seq<ParameterUpdate>>)
    requires i < |outcomes|
    ensures Collected(outcomes[i := r][i..]) == Collected(outcomes[i + 1..]) + Payload(r)
  {
    assert outcomes[i := r][i..][1..] == outcomes[i + 1..];
  }

  // ---------------------------------------------------------------------
  // The parameter store
  // ---------------------------------------------------------------------

  /** The Cubism core's parameter ids and their values. */
  class CoreModel {
    const parameterIds: seq<string>
    const parameterValues: array<real>

    constructor (ids: seq<string>, values: seq<real>)
      ensures parameterIds == ids && parameterValues[..] == values && fresh(parameterValues)
    {
      parameterIds := ids;
      parameterValues := new real[|values|](k requires 0 <= k < |values| => values[k]);
    }
  }

  /** _parameterIds.indexOf(id): the first position holding id, or -1. */
  function IndexOf(ids: seq<string>, id: string): (i: int)
    ensures -1 <= i < |ids|
    ensures 0 <= i ==> ids[i] == id && forall k :: 0 <= k < i ==> ids[k] != id
    ensures i == -1 ==> forall k :: 0 <= k < |ids| ==> ids[k] != id
  {
    if ids == [] then -1
    else if ids[0] == id then 0
    else
      var j := IndexOf(ids[1..], id);
      if j == -1 then -1 else j + 1
  }

  /** The new value of a slot: weight 1 replaces it, any other weight adds value * weight. */
  function Blend(current: real, value: real, weight: real): real
  {
    if weight == 1.0 then value else current + value * weight
  }

  /** setModelParameter on a list of values: the slot of the id, if the id is known and
      the slot exists, is blended; every other slot, and every slot for an unknown id,
      keeps its value. */
  function SetParam(ids: seq<string>, values: seq<real>, u: ParameterUpdate): (r: seq<real>)
    ensures |r| == |values|
    ensures var i := IndexOf(ids, u.name);
            && (forall k :: 0 <= k < |r| && k != i ==> r[k] == values[k])
            && (0 <= i < |values| ==> r[i] == Blend(values[i], u.value, u.weight))
            && (i == -1 ==> r == values)
  {
    var i := IndexOf(ids, u.name);
    if 0 <= i < |values| then values[i := Blend(values[i], u.value, u.weight)] else values
  }

  /** The writes applied one after another, first to last. */
  function ApplyAll(ids: seq<string>, values: seq<real>, us: seq<ParameterUpdate>): (r: seq<real>)
    ensures |r| == |values|
  {
    if us == [] then values else SetParam(ids, ApplyAll(ids, values, us[..|us| - 1]), us[|us| - 1])
  }

  lemma {:induction false} ApplyAllAppend(ids: seq<string>, values: seq<real>, a: seq<ParameterUpdate>, b: seq<ParameterUpdate>)
    ensures ApplyAll(ids, values, a + b) == ApplyAll(ids, ApplyAll(ids, values, a), b)
  {
    if b == [] {
      assert a + b == a;
    } else {
      ApplyAllAppend(ids, values, a, b[..|b| - 1]);
      assert (a + b)[..|a + b| - 1] == a + b[..|b| - 1];
    }
  }

  /** Writes to other names leave a slot alone. */
  lemma {:induction false} ApplyAllOthers(ids: seq<string>, values: seq<real>, us: seq<ParameterUpdate>, name: string)
    requires 0 <= IndexOf(ids, name) < |values|
    requires forall v :: v in us ==> v.name != name
    ensures ApplyAll(ids, values, us)[IndexOf(ids, name)] == values[IndexOf(ids, name)]
  {
    if us != [] {
      ApplyAllOthers(ids, values, us[..|us| - 1], name);
    }
  }

  /** The last weight-1 write to a known name decides its slot, whatever came before. */
  lemma LastWriteWins(ids: seq<string>, values: seq<real>, pre: seq<ParameterUpdate>, u: ParameterUpdate,
                      post: seq<ParameterUpdate>)
    requires u.weight == 1.0 && 0 <= IndexOf(ids, u.name) < |values|
    requires forall v :: v in post ==> v.name != u.name
    ensures ApplyAll(ids, values, pre + [u] + post)[IndexOf(ids, u.name)] == u.value
  {
    ApplyAllAppend(ids, values, pre + [u], post);
    var mid := ApplyAll(ids, values, pre + [u]);
    assert (pre + [u])[..|pre + [u]| - 1] == pre;
    ApplyAllOthers(ids, mid, post, u.name);
  }

  /** Writes to unknown ids change nothing. */
  lemma {:induction false} UnknownIdsIgnored(ids: seq<string>, values: seq<real>, us: seq<ParameterUpdate>)
    requires forall v :: v in us ==> IndexOf(ids, v.name) == -1
    ensures ApplyAll(ids, values, us) == values
  {
    if us != [] {
      UnknownIdsIgnored(ids, values, us[..|us| - 1]);
    }
  }

  // ---------------------------------------------------------------------
  // Application order
  // ---------------------------------------------------------------------

  /** The tick's answer writes nothing to the name. */
  predicate NoWrite(o: Option<seq<ParameterUpdate>>, name: string)
  {
    forall v :: v in Payload(o) ==> v.name != name
  }

  /** update applies the last entry's writes first, so among the entries writing a
      name with weight 1 the one with the lowest priority wins: the last weight-1 write
      of entry k decides the slot when no entry below it writes the name. */
  lemma {:induction false} LowestPriorityWins(ids: seq<string>, values: seq<real>,
                                              outcomes: seq<Option<seq<ParameterUpdate>>>, k: nat,
                                              before: seq<ParameterUpdate>, u: ParameterUpdate,
                                              after: seq<ParameterUpdate>)
    requires k < |outcomes| && outcomes[k] == Some(before + [u] + after)
    requires forall v :: v in after ==> v.name != u.name
    requires u.weight == 1.0 && 0 <= IndexOf(ids, u.name) < |values|
    requires forall j :: 0 <= j < k ==> NoWrite(outcomes[j], u.name)
    ensures ApplyAll(ids, values, Collected(outcomes))[IndexOf(ids, u.name)] == u.value
    decreases k
  {
    var rest := Collected(outcomes[1..]);
    if k == 0 {
      LastWriteWins(ids, values, rest + before, u, after);
      assert rest + before + [u] + after == Collected(outcomes);
    } else {
      LowestPriorityWins(ids, values, outcomes[1..], k - 1, before, u, after);
      ApplyAllAppend(ids, values, rest, Payload(outcomes[0]));
      assert NoWrite(outcomes[0], u.name);
      ApplyAllOthers(ids, ApplyAll(ids, values, rest), Payload(outcomes[0]), u.name);
    }
  }

  /** Two entries writing one parameter with weight 1, priority 1 the value a and
      priority 2 the value b: the parameter ends at a, the lower priority's value. */
  lemma LowerPriorityOverrides(ids: seq<string>, values: seq<real>, name: string, a: real, b: real)
    requires 0 <= IndexOf(ids, name) < |values|
    ensures ApplyAll(ids, values, Collected([Some([Set(name, a)]), Some([Set(name, b)])]))[IndexOf(ids, name)] == a
  {
    var outcomes := [Some([Set(name, a)]), Some([Set(name, b)])];
    assert [] + [Set(name, a)] + [] == [Set(name, a)];
    LowestPriorityWins(ids, values, outcomes, 0, [], Set(name, a), []);
  }

  /** The order the documentation of add describes (a higher number is a higher
      priority): the writes of the ticks with the first entry's first and the last
      entry's last, so that a higher priority's write is applied later and prevails. */
  function CollectedByPriority(outcomes: seq<Option<seq<ParameterUpdate>>>): seq<ParameterUpdate>
  {
    if outcomes == [] then [] else Payload(outcomes[0]) + CollectedByPriority(outcomes[1..])
  }

  /** Entries that do not write a name contribute no write to it. */
  lemma {:induction false} NoWritesCollected(outcomes: seq<Option<seq<ParameterUpdate>>>, name: string)
    requires forall j :: 0 <= j < |outcomes| ==> NoWrite(outcomes[j], name)
    ensures forall v :: v in CollectedByPriority(outcomes) ==> v.name != name
  {
    if outcomes != [] {
      NoWritesCollected(outcomes[1..], name);
      assert NoWrite(outcomes[0], name);
    }
  }

  /** In that order the highest priority wins: the last weight-1 write of entry k
      decides the slot when no entry above it writes the name. */
  lemma {:induction false} HighestPriorityWins(ids: seq<string>, values: seq<real>,
                                               outcomes: seq<Option<seq<ParameterUpdate>>>, k: nat,
                                               before: seq<ParameterUpdate>, u: ParameterUpdate,
                                               after: seq<ParameterUpdate>)
    requires k < |outcomes| && outcomes[k] == Some(before + [u] + after)
    requires forall v :: v in after ==> v.name != u.name
    requires u.weight == 1.0 && 0 <= IndexOf(ids, u.name) < |values|
    requires forall j :: k < j < |outcomes| ==> NoWrite(outcomes[j], u.name)
    ensures ApplyAll(ids, values, CollectedByPriority(outcomes))[IndexOf(ids, u.name)] == u.value
    decreases k
  {
    var rest := CollectedByPriority(outcomes[1..]);
    if k == 0 {
      NoWritesCollected(outcomes[1..], u.name);
      forall v | v in after + rest ensures v.name != u.name {
      }
      LastWriteWins(ids, values, before, u, after + rest);
      assert before + [u] + (after + rest) == CollectedByPriority(outcomes);
    } else {
      ApplyAllAppend(ids, values, Payload(outcomes[0]), rest);
      HighestPriorityWins(ids, ApplyAll(ids, values, Payload(outcomes[0])), outcomes[1..], k - 1, before, u, after);
    }
  }

  /** The two entries of LowerPriorityOverrides in that order: the parameter ends at b,
      the higher priority's value. */
  lemma HigherPriorityOverrides(ids: seq<string>, values: seq<real>, name: string, a: real, b: real)
    requires 0 <= IndexOf(ids, name) < |values|
    ensures ApplyAll(ids, values, CollectedByPriority([Some([Set(name, a)]), Some([Set(name, b)])]))[IndexOf(ids, name)] == b
  {
    var outcomes := [Some([Set(name, a)]), Some([Set(name, b)])];
    assert [] + [Set(name, b)] + [] == [Set(name, b)];
    HighestPriorityWins(ids, values, outcomes, 1, [], Set(name, b), []);
  }

  // ---------------------------------------------------------------------
  // The composer
  // ---------------------------------------------------------------------

  /** Every entry's animator lies in the footprint and keeps its own invariant. */
  ghost predicate AllValid(s: seq<Entry>, repr: set<object>)
    reads repr
  {
    forall k :: 0 <= k < |s| ==> s[k].animator.Obj() in repr && s[k].animator.Valid()
  }

  /** No animator is an array of parameter values. */
  lemma ObjNotValues(a: Animator, values: array<real>)
    ensures a.Obj() != values
  {
  }

  /** No animator reads the core's values. */
  lemma NotValues(a: Animator, values: array<real>)
    ensures values !in a.PeerObjs()
  {
  }

  /** Inserting a valid animator into a valid list gives a valid list over the
      footprint grown by the new animator. */
  lemma AllValidInsert(s: seq<Entry>, n: nat, e: Entry, repr: set<object>)
    requires n <= |s| && AllValid(s, repr) && e.animator.Valid()
    ensures AllValid(s[..n] + [e] + s[n..], repr + {e.animator.Obj()})
  {
    var t := s[..n] + [e] + s[n..];
    forall k | 0 <= k < |t| ensures t[k].animator.Obj() in repr + {e.animator.Obj()} && t[k].animator.Valid() {
      if k < n {
        assert t[k] == s[k];
      } else if k > n {
        assert t[k] == s[k - 1];
      }
    }
  }

  /** The search in add: the first position whose priority is at least the new one,
      or the length of the list. */
  method InsertIndex(list: seq<Entry>, priority: int) returns (insertIndex: nat)
    ensures insertIndex <= |list|
    ensures forall k :: 0 <= k < insertIndex ==> list[k].priority < priority
    ensures insertIndex < |list| ==> list[insertIndex].priority >= priority
    ensures insertIndex == FirstAtLeast(list, priority)
  {
    insertIndex := |list|;
    var i := 0;
    while i < |list|
      invariant 0 <= i <= |list|
      invariant forall k :: 0 <= k < i ==> list[k].priority < priority
    {
      if list[i].priority >= priority {
        insertIndex := i;
        break;
      }
      i := i + 1;
    }
    var n := FirstAtLeast(list, priority);
    assert n <= insertIndex && insertIndex <= n;
  }

  /** No object is held by two entries. */
  ghost predicate DistinctObjs(s: seq<Entry>)
  {
    forall i, j :: 0 <= i < j < |s| ==> s[i].animator.Obj() != s[j].animator.Obj()
  }

  /** The first position whose animator is one of objs, or -1. */
  function FirstIn(s: seq<Entry>, objs: set<object>): (j: int)
    ensures -1 <= j < |s|
    ensures 0 <= j ==> s[j].animator.Obj() in objs
    ensures j == -1 ==> forall k :: 0 <= k < |s| ==> s[k].animator.Obj() !in objs
  {
    if s == [] then -1
    else if s[0].animator.Obj() in objs then 0
    else
      var j := FirstIn(s[1..], objs);
      if j == -1 then -1 else j + 1
  }

  /** The position of the entry whose animator entry k reads, or -1 when it reads none
      or its peer is not in the list. */
  function PeerIndex(s: seq<Entry>, k: nat): (j: int)
    requires k < |s|
    ensures -1 <= j < |s|
  {
    FirstIn(s, s[k].animator.PeerObjs())
  }

  /** In a list of distinct animators, an entry whose animator is entry k's peer sits
      at PeerIndex, and that is never k itself. */
  lemma PeerIndexUnique(s: seq<Entry>, k: nat, j: nat)
    requires DistinctObjs(s) && k < |s| && j < |s|
    ensures PeerIndex(s, k) != k
    ensures s[j].animator.Obj() in s[k].animator.PeerObjs() <==> j == PeerIndex(s, k)
  {
    PeerNotSelf(s[k].animator);
  }

  /** The animators of the entries and the animators they read. */
  ghost function Footprint(s: seq<Entry>): set<object>
  {
    (set k | 0 <= k < |s| :: s[k].animator.Obj()) + (set k, o | 0 <= k < |s| && o in s[k].animator.PeerObjs() :: o)
  }

  /** The entries of update's first loop ticked so far, those above i: each answered,
      and its new state NS[k] and its answer are the Step of its state S0[k] before
      the loop, with the peer position SP[k] it read and the noise table T[k] after
      its tick. */
  ghost predicate Record(i: int, S0: seq<AnimatorState>, NS: seq<AnimatorState>, SP: seq<(real, real)>,
                         T: seq<seq<int>>, outcomes: seq<Option<seq<ParameterUpdate>>>,
                         now: real, m: MathLib, draws: seq<seq<real>>)
    requires -1 <= i < |S0| == |NS| == |SP| == |T| == |outcomes| == |draws|
  {
    forall k :: i < k < |S0| ==> Recorded(k, S0, NS, SP, T, outcomes, now, m, draws)
  }

  /** Entry k was ticked from a valid state: its new state and its answer are its Step. */
  ghost predicate Recorded(k: nat, S0: seq<AnimatorState>, NS: seq<AnimatorState>, SP: seq<(real, real)>,
                           T: seq<seq<int>>, outcomes: seq<Option<seq<ParameterUpdate>>>,
                           now: real, m: MathLib, draws: seq<seq<real>>)
    requires k < |S0| == |NS| == |SP| == |T| == |outcomes| == |draws|
  {
    && StateValid(S0[k]) && Draws(draws[k], MaxDraws) && |T[k]| == 512 && outcomes[k].Some?
    && (NS[k], outcomes[k].value) == Step(S0[k], now, m, draws[k], SP[k], T[k])
  }

  /** Ticking entry i extends the record. */
  lemma RecordExtend(i: nat, S0: seq<AnimatorState>, NS: seq<AnimatorState>, SP: seq<(real, real)>,
                     T: seq<seq<int>>, outcomes: seq<Option<seq<ParameterUpdate>>>,
                     now: real, m: MathLib, draws: seq<seq<real>>,
                     ns: AnimatorState, sp: (real, real), t: seq<int>, r: Option<seq<ParameterUpdate>>)
    requires i < |S0| == |NS| == |SP| == |T| == |outcomes| == |draws|
    requires Record(i, S0, NS, SP, T, outcomes, now, m, draws)
    requires StateValid(S0[i]) && Draws(draws[i], MaxDraws) && |t| == 512 && r.Some?
    requires (ns, r.value) == Step(S0[i], now, m, draws[i], sp, t)
    ensures Record(i - 1, S0, NS[i := ns], SP[i := sp], T[i := t], outcomes[i := r], now, m, draws)
  {
    var NS', SP', T', outcomes' := NS[i := ns], SP[i := sp], T[i := t], outcomes[i := r];
    forall k | i - 1 < k < |S0|
      ensures Recorded(k, S0, NS', SP', T', outcomes', now, m, draws)
    {
      if k > i {
        assert Recorded(k, S0, NS, SP, T, outcomes, now, m, draws);
      }
    }
  }

  /** Once the whole list is ticked, each entry's Step may be read with the final table:
      an entry that read the table saw the final one, and the others did not read it. */
  lemma RecordFinal(S0: seq<AnimatorState>, NS: seq<AnimatorState>, SP: seq<(real, real)>,
                    T: seq<seq<int>>, outcomes: seq<Option<seq<ParameterUpdate>>>,
                    now: real, m: MathLib, draws: seq<seq<real>>, table: seq<int>)
    requires |S0| == |NS| == |SP| == |T| == |outcomes| == |draws|
    requires m.Valid() && |table| == 512
    requires Record(-1, S0, NS, SP, T, outcomes, now, m, draws)
    requires forall k :: 0 <= k < |S0| && StateValid(S0[k]) && UsesTable(S0[k], now) ==> T[k] == table
    ensures forall k :: 0 <= k < |S0| ==>
              && StateValid(S0[k]) && Draws(draws[k], MaxDraws) && outcomes[k].Some?
              && (NS[k], outcomes[k].value) == Step(S0[k], now, m, draws[k], SP[k], table)
  {
    forall k | 0 <= k < |S0|
      ensures && StateValid(S0[k]) && Draws(draws[k], MaxDraws) && outcomes[k].Some?
              && (NS[k], outcomes[k].value) == Step(S0[k], now, m, draws[k], SP[k], table)
    {
      assert Recorded(k, S0, NS, SP, T, outcomes, now, m, draws);
      StepValid(S0[k], now, m, draws[k], SP[k], T[k], table);
    }
  }

  /** The entries above i that read the noise table saw the table as it is now, and it
      is built. */
  ghost predicate TablesKept(i: int, S0: seq<AnimatorState>, T: seq<seq<int>>, now: real, noise: SimpleNoise)
    requires -1 <= i < |S0| == |T|
    reads noise, noise.permutation
  {
    forall k :: i < k < |S0| && StateValid(S0[k]) && UsesTable(S0[k], now) ==>
      noise.initialized && T[k] == noise.permutation[..]
  }

  /** The states of the entries' animators. */
  ghost function States(s: seq<Entry>): (r: seq<AnimatorState>)
    reads set k | 0 <= k < |s| :: s[k].animator.Obj()
    ensures |r| == |s| && forall k :: 0 <= k < |s| ==> r[k] == s[k].animator.State()
  {
    seq(|s|, k requires 0 <= k < |s| reads if 0 <= k < |s| then {s[k].animator.Obj()} else {}
               => s[k].animator.State())
  }

  /** The positions the entries' animators read from their peers. */
  ghost function Positions(s: seq<Entry>): (r: seq<(real, real)>)
    reads set k, o | 0 <= k < |s| && o in s[k].animator.PeerObjs() :: o
    ensures |r| == |s| && forall k :: 0 <= k < |s| ==> r[k] == s[k].animator.PeerPos()
  {
    seq(|s|, k requires 0 <= k < |s| reads if 0 <= k < |s| then s[k].animator.PeerObjs() else {}
               => s[k].animator.PeerPos())
  }

  /** The record of update's first loop over the entries' states cur and the positions
      pos they read: the entries up to i hold their states S0 from before the loop and
      the ticked ones their new states NS; an entry whose peer is not yet ticked sees
      the peer's position P0 from before the loop; a ticked entry read SP, which is its
      peer's position now when the peer sits later in the list (the peer was ticked
      first and not since), and from before otherwise. */
  ghost predicate RecordedHeap(s: seq<Entry>, i: int, S0: seq<AnimatorState>, NS: seq<AnimatorState>,
                               P0: seq<(real, real)>, SP: seq<(real, real)>,
                               cur: seq<AnimatorState>, pos: seq<(real, real)>)
    requires -1 <= i < |s| == |S0| == |NS| == |P0| == |SP| == |cur| == |pos|
  {
    && (forall k :: 0 <= k <= i ==> cur[k] == S0[k])
    && (forall k :: i < k < |s| ==> cur[k] == NS[k])
    && (forall k :: 0 <= k < |s| && PeerIndex(s, k) <= i ==> pos[k] == P0[k])
    && (forall k :: i < k < |s| ==> SP[k] == if PeerIndex(s, k) > k then pos[k] else P0[k])
  }

  /** Ticking entry i, which changes its own state and only the position read by the
      entry whose peer it is, moves the record on by one. */
  lemma RecordedHeapStep(s: seq<Entry>, i: nat, S0: seq<AnimatorState>, NS: seq<AnimatorState>,
                         P0: seq<(real, real)>, SP: seq<(real, real)>,
                         cur: seq<AnimatorState>, pos: seq<(real, real)>,
                         cur': seq<AnimatorState>, pos': seq<(real, real)>, ns: AnimatorState)
    requires DistinctObjs(s) && i < |s| == |S0| == |NS| == |P0| == |SP| == |cur| == |pos| == |pos'|
    requires RecordedHeap(s, i, S0, NS, P0, SP, cur, pos)
    requires cur' == cur[i := ns]
    requires forall k :: 0 <= k < |s| && PeerIndex(s, k) != i ==> pos'[k] == pos[k]
    ensures RecordedHeap(s, i - 1, S0, NS[i := ns], P0, SP[i := pos[i]], cur', pos')
  {
    PeerIndexUnique(s, i, i);
  }

  /** The record of update's first loop over the animators as they are now. */
  ghost predicate HeapRecord(s: seq<Entry>, i: int, S0: seq<AnimatorState>, NS: seq<AnimatorState>,
                             P0: seq<(real, real)>, SP: seq<(real, real)>)
    requires -1 <= i < |s| == |S0| == |NS| == |P0| == |SP|
    reads Footprint(s)
  {
    RecordedHeap(s, i, S0, NS, P0, SP, States(s), Positions(s))
  }

  class Live2dAnimator {
    /** The model's core, or null when the model has none. */
    const core: CoreModel?
    /** The noise source the head animator draws on. */
    const noise: SimpleNoise
    var priorityList: seq<Entry>
    /** The animators' objects. */
    ghost var Repr: set<object>

    ghost predicate Valid()
      reads this, Repr, noise, noise.permutation
    {
      && noise.Valid()
      && this !in Repr
      && AllValid(priorityList, Repr)
      && (core != null ==> core.parameterValues !in Repr)
    }

    constructor (core: CoreModel?)
      ensures Valid() && this.core == core && priorityList == [] && fresh(noise)
    {
      this.core := core;
      Repr := {};
      noise := new SimpleNoise();
      priorityList := [];
    }

    /** add: inserts the entry before the first entry of at least its priority, or at
        the end. An ascending list stays ascending. */
    method Add(priority: int, animator: Animator)
      requires Valid() && animator.Valid()
      modifies this
      ensures Valid()
      ensures var n := FirstAtLeast(old(priorityList), priority);
              priorityList == old(priorityList)[..n] + [Entry(priority, animator)] + old(priorityList)[n..]
      ensures SortedAsc(old(priorityList)) ==> SortedAsc(priorityList)
    {
      var insertIndex := InsertIndex(priorityList, priority);
      ghost var before := priorityList;
      if SortedAsc(before) {
        InsertKeepsAscending(before, Entry(priority, animator));
      }
      AllValidInsert(before, insertIndex, Entry(priority, animator), Repr);
      NotComposer(animator, this);
      priorityList := priorityList[..insertIndex] + [Entry(priority, animator)] + priorityList[insertIndex..];
      Repr := Repr + {animator.Obj()};
      if core != null {
        ObjNotValues(animator, core.parameterValues);
      }
    }

    /** One step of update's first loop: the entry at i is ticked. Every entry's
        invariant, and the noise source's, is kept, and the list stays as it is. */
    method TickEntry(i: nat, now: real, m: MathLib, draws: seq<real>, noiseDraws: seq<real>)
      returns (r: Option<seq<ParameterUpdate>>)
      requires Valid() && i < |priorityList| && m.Valid() && Draws(draws, MaxDraws) && Draws(noiseDraws, 255)
      modifies priorityList[i].animator.Obj(), noise, noise.permutation
      ensures Valid()
      ensures old(noise.initialized) ==> noise.initialized && noise.permutation[..] == old(noise.permutation[..])
      ensures var a := priorityList[i].animator;
              && (UsesTable(old(a.State()), now) ==> noise.initialized)
              && r.Some?
              && (a.State(), r.value) == Step(old(a.State()), now, m, draws, old(a.PeerPos()), noise.permutation[..])
      ensures var L := priorityList;
              forall k :: 0 <= k < |L| && L[k].animator.Obj() != L[i].animator.Obj() ==>
                L[k].animator.State() == old(L[k].animator.State())
      ensures var L := priorityList;
              forall k :: 0 <= k < |L| && L[i].animator.Obj() !in L[k].animator.PeerObjs() ==>
                L[k].animator.PeerPos() == old(L[k].animator.PeerPos())
    {
      var a := priorityList[i].animator;
      NotComposer(a, this);
      label Before:
      r := TickWatched(a, priorityList, now, m, draws, noise, noiseDraws);
      forall k | 0 <= k < |priorityList| ensures priorityList[k].animator.Valid() {
        var b := priorityList[k].animator;
        if b.Obj() == a.Obj() {
          ObjInjective(b, a);
        } else {
          assert old@Before(b.Valid());
        }
      }
    }

    /** setModelParameter: blends the write into the core's values; without a core, or
        for an unknown id, nothing changes. */
    method SetModelParameter(paramId: string, value: real, weight: real)
      modifies if core != null then {core.parameterValues} else {}
      ensures core != null ==>
                core.parameterValues[..]
                == SetParam(core.parameterIds, old(core.parameterValues[..]), ParameterUpdate(paramId, value, weight))
    {
      if core != null {
        var paramIndex := IndexOf(core.parameterIds, paramId);
        if 0 <= paramIndex < core.parameterValues.Length {
          var oldValue := core.parameterValues[paramIndex];
          var newValue := if weight == 1.0 then value else oldValue + value * weight;
          core.parameterValues[paramIndex] := newValue;
        }
      }
    }

    /** The last loop of update: the collected writes, applied first to last. */
    method ApplyResults(results: seq<ParameterUpdate>, ghost L: seq<Entry>)
      modifies if core != null then {core.parameterValues} else {}
      ensures core != null ==>
                core.parameterValues[..] == ApplyAll(core.parameterIds, old(core.parameterValues[..]), results)
      ensures noise.permutation[..] == old(noise.permutation[..])
      ensures forall k :: 0 <= k < |L| ==>
                L[k].animator.State() == old(L[k].animator.State()) && L[k].animator.PeerPos() == old(L[k].animator.PeerPos())
    {
      var j := 0;
      while j < |results|
        invariant 0 <= j <= |results|
        invariant core != null ==>
                    core.parameterValues[..] == ApplyAll(core.parameterIds, old(core.parameterValues[..]), results[..j])
      {
        var u := results[j];
        SetModelParameter(u.name, u.value, u.weight);
        assert results[..j + 1][..j] == results[..j];
        j := j + 1;
      }
      assert results[..|results|] == results;
      forall k | 0 <= k < |L|
        ensures L[k].animator.State() == old(L[k].animator.State())
        ensures L[k].animator.PeerPos() == old(L[k].animator.PeerPos())
      {
        if core != null {
          ObjNotValues(L[k].animator, core.parameterValues);
          NotValues(L[k].animator, core.parameterValues);
          PeerPosKept(L[k].animator);
        }
      }
    }

    /** The first loop of update: ticks every entry once, from the last to the first,
        and collects the writes. Every animator answers, so no entry is spliced out.
        draws[k] are the random draws of entry k; the ghost result records each entry's
        answer. When no animator is in the list twice, each entry's new state and
        answer are the Step of its state before the loop, with its peer's position as
        the peer had it when the entry was ticked: after the peer's own tick when the
        peer sits later in the list, as before the loop otherwise. */
    method TickAll(now: real, m: MathLib, draws: seq<seq<real>>, noiseDraws: seq<real>)
      returns (results: seq<ParameterUpdate>, ghost outcomes: seq<Option<seq<ParameterUpdate>>>)
      requires Valid() && m.Valid() && Draws(noiseDraws, 255)
      requires |draws| == |priorityList| && forall k :: 0 <= k < |draws| ==> Draws(draws[k], MaxDraws)
      modifies Repr, noise, noise.permutation
      ensures Valid()
      ensures |outcomes| == |old(priorityList)|
      ensures forall k :: 0 <= k < |outcomes| ==> outcomes[k].Some?
      ensures priorityList == Survivors(old(priorityList), outcomes)
      ensures results == Collected(outcomes)
      ensures DistinctObjs(old(priorityList)) ==>
                forall k :: 0 <= k < |old(priorityList)| ==>
                  var a := old(priorityList)[k].animator;
                  (a.State(), outcomes[k].value)
                  == Step(old(a.State()), now, m, draws[k],
                          if PeerIndex(old(priorityList), k) > k then a.PeerPos() else old(a.PeerPos()),
                          noise.permutation[..])
    {
      ghost var orig := priorityList;
      ghost var S0 := States(orig);
      ghost var P0 := Positions(orig);
      ghost var NS, SP, T;
      results, outcomes, NS, SP, T := TickLoop(now, m, draws, noiseDraws, S0, P0);
      SurvivorsAll(orig, outcomes);
      if DistinctObjs(orig) {
        RecordFinal(S0, NS, SP, T, outcomes, now, m, draws, noise.permutation[..]);
      }
    }

    /** The loop of update's first phase, with its record: NS, SP and T hold, per
        entry, its new state, the peer position it read and the noise table after its
        tick. */
    method TickLoop(now: real, m: MathLib, draws: seq<seq<real>>, noiseDraws: seq<real>,
                    ghost S0: seq<AnimatorState>, ghost P0: seq<(real, real)>)
      returns (results: seq<ParameterUpdate>, ghost outcomes: seq<Option<seq<ParameterUpdate>>>,
               ghost NS: seq<AnimatorState>, ghost SP: seq<(real, real)>, ghost T: seq<seq<int>>)
      requires Valid() && m.Valid() && Draws(noiseDraws, 255)
      requires |draws| == |priorityList| && forall k :: 0 <= k < |draws| ==> Draws(draws[k], MaxDraws)
      requires S0 == States(priorityList) && P0 == Positions(priorityList)
      modifies Repr, noise, noise.permutation
      ensures Valid() && priorityList == old(priorityList)
      ensures |outcomes| == |NS| == |SP| == |T| == |S0|
      ensures forall k :: 0 <= k < |outcomes| ==> outcomes[k].Some?
      ensures results == Collected(outcomes)
      ensures DistinctObjs(old(priorityList)) ==>
                && Record(-1, S0, NS, SP, T, outcomes, now, m, draws)
                && TablesKept(-1, S0, T, now, noise)
                && HeapRecord(old(priorityList), -1, S0, NS, P0, SP)
    {
      ghost var orig := priorityList;
      ghost var n := |orig|;
      ghost var distinct := DistinctObjs(orig);
      ghost var table := noise.permutation[..];
      NS := S0;
      SP := P0;
      T := seq(n, k => table);
      outcomes := seq(n, k => None);
      results := [];
      var i := |priorityList| - 1;
      while i >= 0
        invariant -1 <= i < n && |outcomes| == |NS| == |SP| == |T| == n && Valid()
        invariant priorityList == orig
        invariant forall k :: i < k < n ==> outcomes[k].Some?
        invariant results == Collected(outcomes[i + 1..])
        invariant distinct ==> Record(i, S0, NS, SP, T, outcomes, now, m, draws)
        invariant distinct ==> TablesKept(i, S0, T, now, noise)
        invariant distinct ==> HeapRecord(orig, i, S0, NS, P0, SP)
      {
        ghost var before := outcomes;
        NotComposer(orig[i].animator, this);
        var result;
        result, NS, SP, T, outcomes := Advance(i, S0, P0, NS, SP, T, outcomes, now, m, draws, noiseDraws);
        CollectedStep(before, i, result);
        results := results + result.value;
        i := i - 1;
      }
      assert outcomes[0..] == outcomes;
    }

    /** One step of update's first loop: entry i is ticked and its answer recorded.
        When no animator is in the list twice, its new state and its answer are the
        Step of its state S0[i] before the loop with the position it read, and the
        record, the tables read and the heap record move on by one. */
    method Advance(i: nat, ghost S0: seq<AnimatorState>, ghost P0: seq<(real, real)>,
                   ghost NS: seq<AnimatorState>, ghost SP: seq<(real, real)>, ghost T: seq<seq<int>>,
                   ghost outcomes: seq<Option<seq<ParameterUpdate>>>,
                   now: real, m: MathLib, draws: seq<seq<real>>, noiseDraws: seq<real>)
      returns (r: Option<seq<ParameterUpdate>>, ghost NS': seq<AnimatorState>, ghost SP': seq<(real, real)>,
               ghost T': seq<seq<int>>, ghost outcomes': seq<Option<seq<ParameterUpdate>>>)
      requires Valid() && i < |priorityList| == |S0| == |P0| == |NS| == |SP| == |T| == |outcomes| == |draws|
      requires m.Valid() && Draws(noiseDraws, 255) && forall k :: 0 <= k < |draws| ==> Draws(draws[k], MaxDraws)
      requires DistinctObjs(priorityList) ==>
                 && TablesKept(i, S0, T, now, noise)
                 && HeapRecord(priorityList, i, S0, NS, P0, SP)
      modifies priorityList[i].animator.Obj(), noise, noise.permutation
      ensures Valid() && r.Some? && outcomes' == outcomes[i := r]
      ensures |NS'| == |SP'| == |T'| == |S0|
      ensures DistinctObjs(old(priorityList)) && Record(i, S0, NS, SP, T, outcomes, now, m, draws) ==>
                Record(i - 1, S0, NS', SP', T', outcomes', now, m, draws)
      ensures DistinctObjs(old(priorityList)) ==>
                && TablesKept(i - 1, S0, T', now, noise)
                && HeapRecord(old(priorityList), i - 1, S0, NS', P0, SP')
    {
      var L := priorityList;
      var a := L[i].animator;
      ghost var cur := States(L);
      ghost var pos := Positions(L);
      ghost var sp := a.PeerPos();
      NotComposer(a, this);
      r := TickEntry(i, now, m, draws[i], noiseDraws);
      ghost var ns := a.State();
      NS' := NS[i := ns];
      SP' := SP[i := sp];
      T' := T[i := noise.permutation[..]];
      outcomes' := outcomes[i := r];
      if DistinctObjs(L) {
        assert L[i].animator.Obj() in Repr;
        if Record(i, S0, NS, SP, T, outcomes, now, m, draws) {
          RecordExtend(i, S0, NS, SP, T, outcomes, now, m, draws, ns, sp, noise.permutation[..], r);
        }
        ghost var cur' := States(L);
        ghost var pos' := Positions(L);
        assert cur' == cur[i := ns];
        forall k | 0 <= k < |L| && PeerIndex(L, k) != i ensures pos'[k] == pos[k] {
          PeerIndexUnique(L, k, i);
        }
        RecordedHeapStep(L, i, S0, NS, P0, SP, cur, pos, cur', pos', ns);
      }
    }

    /** update: the first loop, then the collected writes applied in the order they were
        collected. */
    method Update(now: real, m: MathLib, draws: seq<seq<real>>, noiseDraws: seq<real>)
      returns (ghost outcomes: seq<Option<seq<ParameterUpdate>>>)
      requires Valid() && m.Valid() && Draws(noiseDraws, 255)
      requires |draws| == |priorityList| && forall k :: 0 <= k < |draws| ==> Draws(draws[k], MaxDraws)
      modifies Repr, noise, noise.permutation
      modifies if core != null then {core.parameterValues} else {}
      ensures Valid()
      ensures |outcomes| == |old(priorityList)|
      ensures forall k :: 0 <= k < |outcomes| ==> outcomes[k].Some?
      ensures priorityList == Survivors(old(priorityList), outcomes)
      ensures DistinctObjs(old(priorityList)) ==>
                forall k :: 0 <= k < |old(priorityList)| ==>
                  var a := old(priorityList)[k].animator;
                  (a.State(), outcomes[k].value)
                  == Step(old(a.State()), now, m, draws[k],
                          if PeerIndex(old(priorityList), k) > k then a.PeerPos() else old(a.PeerPos()),
                          noise.permutation[..])
      ensures core != null ==>
                core.parameterValues[..]
                == ApplyAll(core.parameterIds, old(core.parameterValues[..]), Collected(outcomes))
    {
      ghost var L := priorityList;
      var results;
      results, outcomes := TickAll(now, m, draws, noiseDraws);
      ApplyResults(results, L);
    }
  }
}
