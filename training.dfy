/**
 * The static entry points of Src/XGBoost/XGBoost.cs: `Train` builds a booster
 * whose cache is the training matrix followed by the watched matrices, then
 * runs `round` iterations, each an update on the training matrix followed by
 * an evaluation of the watched matrices; `LoadModel` forwards to the booster.
 *
 * The watcher dictionary is its enumeration: (name, matrix) pairs in order.
 * The metrics array matters only through whether it is null.
 */
module XGBoostApi {
  import opened NativeApi
  import opened ErrorChannel
  import opened MatrixWrapper
  import opened BoosterWrapper

  type Watchers = seq<(string, DMatrix)>

  /** The watcher names, in enumeration order. */
  function Names(watchers: Watchers): (names: seq<string>)
    ensures |names| == |watchers|
    ensures forall i :: 0 <= i < |watchers| ==> names[i] == watchers[i].0
  {
    if watchers == [] then []
    else Names(watchers[..|watchers| - 1]) + [watchers[|watchers| - 1].0]
  }

  /** The watched matrices, in enumeration order. */
  function Matrices(watchers: Watchers): (ms: seq<DMatrix>)
    ensures |ms| == |watchers|
    ensures forall i :: 0 <= i < |watchers| ==> ms[i] == watchers[i].1
  {
    if watchers == [] then []
    else Matrices(watchers[..|watchers| - 1]) + [watchers[|watchers| - 1].1]
  }

  /** The number of iterations a `for (iter = 0; iter < round; iter++)` loop runs. */
  function Iterations(round: int): nat
  {
    if round > 0 then round else 0
  }

  /** The native calls of `r` complete rounds on booster `h`: round `i` updates
      on the training matrix `th` with iteration number `i`, then evaluates
      the watched matrices `eh` under `names`. */
  function Rounds(h: Handle, th: Handle, eh: seq<Handle>, names: seq<string>, r: nat): seq<Call>
  {
    if r == 0 then []
    else Rounds(h, th, eh, names, r - 1) + [XGBoosterUpdateOneIter(h, r - 1, th), XGBoosterEvalOneIter(h, r - 1, eh, names, |names|)]
  }

  /** The events `r` complete rounds record on the booster. */
  function RoundEvents(th: Handle, eh: seq<Handle>, names: seq<string>, r: nat): seq<Event>
  {
    if r == 0 then []
    else RoundEvents(th, eh, names, r - 1) + [Updated(r - 1, th), Evaluated(r - 1, eh, names)]
  }

  /** The events of the rounds alternate an update and an evaluation,
      iteration numbers counting up from 0. */
  lemma {:induction false} RoundEventsShape(th: Handle, eh: seq<Handle>, names: seq<string>, r: nat)
    ensures |RoundEvents(th, eh, names, r)| == 2 * r
    ensures forall i :: 0 <= i < r ==>
      RoundEvents(th, eh, names, r)[2 * i] == Updated(i, th) &&
      RoundEvents(th, eh, names, r)[2 * i + 1] == Evaluated(i, eh, names)
  {
    if r > 0 {
      RoundEventsShape(th, eh, names, r - 1);
      var prev := RoundEvents(th, eh, names, r - 1);
      var cur := RoundEvents(th, eh, names, r);
      forall i | 0 <= i < r
        ensures cur[2 * i] == Updated(i, th)
        ensures cur[2 * i + 1] == Evaluated(i, eh, names)
      {
        if i < r - 1 {
          assert cur[2 * i] == prev[2 * i] && cur[2 * i + 1] == prev[2 * i + 1];
        }
      }
    }
  }

  /** The rounds interleave updates and evaluations, iteration numbers counting
      up from 0. */
  lemma {:induction false} RoundsShape(h: Handle, th: Handle, eh: seq<Handle>, names: seq<string>, r: nat)
    ensures |Rounds(h, th, eh, names, r)| == 2 * r
    ensures forall i :: 0 <= i < r ==>
      Rounds(h, th, eh, names, r)[2 * i] == XGBoosterUpdateOneIter(h, i, th) &&
      Rounds(h, th, eh, names, r)[2 * i + 1] == XGBoosterEvalOneIter(h, i, eh, names, |names|)
  {
    if r > 0 {
      RoundsShape(h, th, eh, names, r - 1);
      var prev := Rounds(h, th, eh, names, r - 1);
      var cur := Rounds(h, th, eh, names, r);
      forall i | 0 <= i < r
        ensures cur[2 * i] == XGBoosterUpdateOneIter(h, i, th)
        ensures cur[2 * i + 1] == XGBoosterEvalOneIter(h, i, eh, names, |names|)
      {
        if i < r - 1 {
          assert cur[2 * i] == prev[2 * i] && cur[2 * i + 1] == prev[2 * i + 1];
        }
      }
    }
  }

  /** Fewer rounds are a prefix of more rounds. */
  lemma {:induction false} RoundsPrefix(h: Handle, th: Handle, eh: seq<Handle>, names: seq<string>, i: nat, r: nat)
    requires i <= r
    ensures |Rounds(h, th, eh, names, i)| == 2 * i <= |Rounds(h, th, eh, names, r)|
    ensures Rounds(h, th, eh, names, r)[..2 * i] == Rounds(h, th, eh, names, i)
  {
    if i < r {
      RoundsPrefix(h, th, eh, names, i, r - 1);
      var prev := Rounds(h, th, eh, names, r - 1);
      assert Rounds(h, th, eh, names, r)[..2 * i] == prev[..2 * i];
    } else if i > 0 {
      RoundsPrefix(h, th, eh, names, i - 1, i - 1);
    }
  }

  /** Cutting the rounds right after the update of iteration `i`. */
  lemma RoundsCut(h: Handle, th: Handle, eh: seq<Handle>, names: seq<string>, i: nat, r: nat)
    requires i < r
    ensures 2 * i + 2 <= |Rounds(h, th, eh, names, r)|
    ensures Rounds(h, th, eh, names, r)[..2 * i + 1] == Rounds(h, th, eh, names, i) + [XGBoosterUpdateOneIter(h, i, th)]
    ensures Rounds(h, th, eh, names, r)[..2 * i + 2] == Rounds(h, th, eh, names, i + 1)
  {
    RoundsPrefix(h, th, eh, names, i + 1, r);
    RoundsShape(h, th, eh, names, i);
    var next := Rounds(h, th, eh, names, i + 1);
    assert Rounds(h, th, eh, names, r)[..2 * i + 1] == next[..2 * i + 1];
  }

  /** The native calls `Train` makes after construction: all rounds, or, when a
      metrics array is given, only the first update (the metrics overload of
      `EvalSet` then raises). */
  function TrainingCalls(h: Handle, th: Handle, eh: seq<Handle>, names: seq<string>, r: nat, withMetrics: bool): seq<Call>
  {
    if !withMetrics then Rounds(h, th, eh, names, r)
    else if r == 0 then []
    else [XGBoosterUpdateOneIter(h, 0, th)]
  }

  /** Booster construction for `Train`: parameters, then the cache. */
  function TrainCalls(h: Handle, th: Handle, eh: seq<Handle>, names: seq<string>, parameters: Option<Parameters>,
                      r: nat, withMetrics: bool): seq<Call>
  {
    CreateCalls([th] + eh, h, parameters) + TrainingCalls(h, th, eh, names, r, withMetrics)
  }

  /** The names and matrices arrays filled from the watchers, in enumeration
      order (the first slot starts out as the training matrix, which the
      first watcher then overwrites). */
  method WatcherArrays(train: DMatrix, watchers: Watchers) returns (evalNames: array<string>, evalMatrices: array<DMatrix>)
    requires |watchers| > 0
    ensures fresh(evalNames) && fresh(evalMatrices)
    ensures evalNames[..] == Names(watchers)
    ensures evalMatrices[..] == Matrices(watchers)
  {
    var n := |watchers|;
    evalNames := new string[n];
    evalMatrices := new DMatrix[n](_ => train);
    evalMatrices[0] := train;
    var ix := 0;
    while ix < n
      invariant 0 <= ix <= n
      invariant forall k :: 0 <= k < ix ==> evalNames[k] == Names(watchers)[k]
      invariant forall k :: 0 <= k < ix ==> evalMatrices[k] == Matrices(watchers)[k]
    {
      evalNames[ix] := watchers[ix].0;
      evalMatrices[ix] := watchers[ix].1;
      ix := ix + 1;
    }
  }

  /** The cache: the training matrix, then a copy of the watched ones. */
  method AllMatrices(train: DMatrix, evalMatrices: array<DMatrix>) returns (allMatrices: array<DMatrix>)
    ensures fresh(allMatrices)
    ensures allMatrices[..] == [train] + evalMatrices[..]
  {
    var n := evalMatrices.Length;
    allMatrices := new DMatrix[n + 1](_ => train);
    allMatrices[0] := train;
    if evalMatrices.Length > 0 {
      for i := 0 to n
        invariant allMatrices[0] == train
        invariant allMatrices[1..i + 1] == evalMatrices[..i]
      {
        allMatrices[i + 1] := evalMatrices[i];
        assert allMatrices[1..i + 2] == allMatrices[1..i + 1] + [allMatrices[i + 1]];
        assert evalMatrices[..i + 1] == evalMatrices[..i] + [evalMatrices[i]];
      }
    }
    assert allMatrices[..] == [allMatrices[0]] + allMatrices[1..n + 1];
    assert evalMatrices[..] == evalMatrices[..n];
  }

  /** One round of `Train`'s loop: an update on the training matrix, then
      an evaluation of the watched matrices (with a metrics array, the
      evaluation raises instead). */
  method OneRound(booster: Booster, train: DMatrix, evalMatrices: seq<DMatrix>, evalNames: seq<string>,
                  iter: nat, withMetrics: bool)
    returns (o: Outcome)
    requires booster.lib.Valid()
    requires |evalMatrices| == |evalNames|
    modifies booster.lib
    ensures booster.lib.Valid()
    ensures booster.lib.state.matrices == old(booster.lib.state.matrices)
    ensures booster.lib.state.next == old(booster.lib.state.next)
    ensures o.Pass? ==> !withMetrics && booster.handle in old(booster.lib.state.boosters)
    ensures o.Pass? ==> (booster.lib.log == old(booster.lib.log) +
      [XGBoosterUpdateOneIter(booster.handle, iter, train.handle),
       XGBoosterEvalOneIter(booster.handle, iter, Handles(evalMatrices), evalNames, |evalNames|)])
    ensures o.Pass? ==> booster.lib.state == WithEvents(old(booster.lib.state), booster.handle,
      [Updated(iter, train.handle), Evaluated(iter, Handles(evalMatrices), evalNames)])
    ensures o.Fail? && o.error.XGBoostException? ==> o.error == XGBoostException(booster.lib.lastError)
    ensures o.Fail? && o.error.XGBoostException? ==> (
      booster.lib.log == old(booster.lib.log) + [XGBoosterUpdateOneIter(booster.handle, iter, train.handle), XGBGetLastError] ||
      (!withMetrics && booster.lib.log == old(booster.lib.log) +
        [XGBoosterUpdateOneIter(booster.handle, iter, train.handle),
         XGBoosterEvalOneIter(booster.handle, iter, Handles(evalMatrices), evalNames, |evalNames|), XGBGetLastError]))
    ensures o.Fail? && !o.error.XGBoostException? ==> (
      o.error == NotImplementedException && withMetrics &&
      booster.lib.log == old(booster.lib.log) + [XGBoosterUpdateOneIter(booster.handle, iter, train.handle)])
  {
    var lib := booster.lib;
    ghost var s0 := lib.state;
    var updated := booster.Update(train, iter);
    if updated.Fail? {
      return updated;
    }
    if withMetrics {
      var evaluated := booster.EvalSetWithMetrics(evalMatrices, evalNames, iter);
      return Fail(evaluated.error);
    }
    var evaluated := booster.EvalSet(evalMatrices, evalNames, iter);
    if evaluated.Err? {
      return Fail(evaluated.error);
    }
    WithEventsTwice(s0, booster.handle, [Updated(iter, train.handle)], [Evaluated(iter, Handles(evalMatrices), evalNames)]);
    assert [Updated(iter, train.handle)] + [Evaluated(iter, Handles(evalMatrices), evalNames)] ==
           [Updated(iter, train.handle), Evaluated(iter, Handles(evalMatrices), evalNames)];
    assert booster.handle in s0.boosters;
    assert lib.log == old(lib.log) + [XGBoosterUpdateOneIter(booster.handle, iter, train.handle),
       XGBoosterEvalOneIter(booster.handle, iter, Handles(evalMatrices), evalNames, |evalNames|)];
    return Pass;
  }

  /** A round that fails partway aborts the planned training calls. */
  lemma AbortedInRound(log0: seq<Call>, log1: seq<Call>, h: Handle, th: Handle, eh: seq<Handle>, names: seq<string>,
                       iter: nat, r: nat, withMetrics: bool)
    requires iter < r
    requires withMetrics ==> iter == 0
    requires log1 == log0 + Rounds(h, th, eh, names, iter) + [XGBoosterUpdateOneIter(h, iter, th), XGBGetLastError] ||
             (!withMetrics && log1 == log0 + Rounds(h, th, eh, names, iter) +
               [XGBoosterUpdateOneIter(h, iter, th), XGBoosterEvalOneIter(h, iter, eh, names, |names|), XGBGetLastError])
    ensures Aborted(log0, log1, TrainingCalls(h, th, eh, names, r, withMetrics))
  {
    var done := Rounds(h, th, eh, names, iter);
    var planned := TrainingCalls(h, th, eh, names, r, withMetrics);
    RoundsCut(h, th, eh, names, iter, r);
    RoundsShape(h, th, eh, names, iter);
    if log1 == log0 + done + [XGBoosterUpdateOneIter(h, iter, th), XGBGetLastError] {
      assert planned[..2 * iter + 1] == done + [XGBoosterUpdateOneIter(h, iter, th)];
      assert log1 == log0 + planned[..2 * iter + 1] + [XGBGetLastError];
    } else {
      assert planned[..2 * iter + 2] == done + [XGBoosterUpdateOneIter(h, iter, th), XGBoosterEvalOneIter(h, iter, eh, names, |names|)];
      assert log1 == log0 + planned[..2 * iter + 2] + [XGBGetLastError];
    }
  }

  /** The round loop of `Train`: update, then evaluate, for iterations
      0 .. round - 1; the first failure stops it. */
  method RunRounds(booster: Booster, train: DMatrix, evalMatrices: seq<DMatrix>, evalNames: seq<string>,
                   round: int, withMetrics: bool)
    returns (o: Outcome)
    requires booster.lib.Valid()
    requires |evalMatrices| == |evalNames| > 0
    modifies booster.lib
    ensures booster.lib.Valid()
    ensures booster.lib.state.matrices == old(booster.lib.state.matrices)
    ensures booster.lib.state.next == old(booster.lib.state.next)
    ensures o.Pass? ==> !withMetrics || Iterations(round) == 0
    ensures o.Pass? ==> (booster.lib.log ==
      old(booster.lib.log) + Rounds(booster.handle, train.handle, old(Handles(evalMatrices)), evalNames, Iterations(round)))
    ensures o.Pass? ==> (booster.lib.state ==
      WithEvents(old(booster.lib.state), booster.handle, RoundEvents(train.handle, old(Handles(evalMatrices)), evalNames, Iterations(round))))
    ensures o.Fail? && o.error.XGBoostException? ==> o.error == XGBoostException(booster.lib.lastError)
    ensures o.Fail? && o.error.XGBoostException? ==>
      Aborted(old(booster.lib.log), booster.lib.log,
              TrainingCalls(booster.handle, train.handle, old(Handles(evalMatrices)), evalNames, Iterations(round), withMetrics))
    ensures o.Fail? && !o.error.XGBoostException? ==> (
      o.error == NotImplementedException && withMetrics && Iterations(round) > 0 &&
      booster.lib.log == old(booster.lib.log) + [XGBoosterUpdateOneIter(booster.handle, 0, train.handle)])
  {
    var lib := booster.lib;
    ghost var log0 := lib.log;
    ghost var s0 := lib.state;
    ghost var h := booster.handle;
    ghost var th := train.handle;
    ghost var eh := Handles(evalMatrices);
    ghost var r := Iterations(round);
    WithEventsNone(s0, h);
    var iter := 0;
    while iter < round
      invariant 0 <= iter <= r
      invariant lib.Valid()
      invariant lib.log == log0 + Rounds(h, th, eh, evalNames, iter)
      invariant lib.state == WithEvents(s0, h, RoundEvents(th, eh, evalNames, iter))
      invariant iter > 0 ==> !withMetrics
    {
      ghost var done := Rounds(h, th, eh, evalNames, iter);
      ghost var logI := lib.log;
      ghost var sI := lib.state;
      var step := OneRound(booster, train, evalMatrices, evalNames, iter, withMetrics);
      if step.Fail? {
        if step.error.XGBoostException? {
          AbortedInRound(log0, lib.log, h, th, eh, evalNames, iter, r, withMetrics);
        } else {
          assert done == [];
        }
        return step;
      }
      assert lib.log == log0 + Rounds(h, th, eh, evalNames, iter + 1);
      WithEventsTwice(s0, h, RoundEvents(th, eh, evalNames, iter), [Updated(iter, th), Evaluated(iter, eh, evalNames)]);
      iter := iter + 1;
    }
    return Pass;
  }

  /** `XGBoost.Train`. With no watcher, writing the training matrix into the
      empty evaluation array fails before any native call. */
  method Train(lib: Library, train: DMatrix, parameters: Option<Parameters>, round: int, watchers: Watchers,
               metrics: Option<seq<seq<Float>>>)
    returns (r: Result<Booster>)
    requires lib.Valid()
    modifies lib
    ensures lib.Valid()
    ensures lib.state.matrices == old(lib.state.matrices)
    ensures |watchers| == 0 ==>
      r == Err(IndexOutOfRangeException) && lib.log == old(lib.log) && lib.state == old(lib.state)
    ensures r.Ok? ==> |watchers| > 0 && (metrics.None? || Iterations(round) == 0)
    ensures r.Ok? ==> fresh(r.value) && r.value.lib == lib && r.value.handle == old(lib.state.next)
    ensures r.Ok? ==> (lib.log == old(lib.log) +
      TrainCalls(old(lib.state.next), train.handle, old(Handles(Matrices(watchers))), Names(watchers), parameters,
                 Iterations(round), metrics.Some?))
    ensures r.Ok? ==> lib.state == old(lib.state).(
      boosters := old(lib.state.boosters)[r.value.handle := Model(
        [train.handle] + old(Handles(Matrices(watchers))), ConstructionWrites(parameters),
        RoundEvents(train.handle, old(Handles(Matrices(watchers))), Names(watchers), Iterations(round)))],
      next := r.value.handle + 1)
    ensures r.Err? && r.error.XGBoostException? ==> r.error == XGBoostException(lib.lastError)
    ensures r.Err? && r.error.XGBoostException? ==>
      Aborted(old(lib.log), lib.log,
              TrainCalls(old(lib.state.next), train.handle, old(Handles(Matrices(watchers))), Names(watchers), parameters,
                         Iterations(round), metrics.Some?))
    ensures r.Err? && |watchers| > 0 && !r.error.XGBoostException? ==> (
      r.error == NotImplementedException && metrics.Some? && Iterations(round) > 0 &&
      lib.log == old(lib.log) +
        TrainCalls(old(lib.state.next), train.handle, old(Handles(Matrices(watchers))), Names(watchers), parameters,
                   Iterations(round), true))
  {
    ghost var eh := Handles(Matrices(watchers));
    var n := |watchers|;
    if n == 0 {
      return Err(IndexOutOfRangeException);
    }
    var evalNames, evalMatrices := WatcherArrays(train, watchers);
    var allMatrices := AllMatrices(train, evalMatrices);
    assert Handles(evalMatrices[..]) == eh;
    r := TrainOn(lib, train, parameters, round, evalMatrices[..], evalNames[..], allMatrices[..], metrics.Some?);
  }

  /** `Train` once the evaluation and cache arrays are built: construct the
      booster over the cache, then run the rounds. */
  method TrainOn(lib: Library, train: DMatrix, parameters: Option<Parameters>, round: int,
                 evalMatrices: seq<DMatrix>, evalNames: seq<string>, allMatrices: seq<DMatrix>, withMetrics: bool)
    returns (r: Result<Booster>)
    requires lib.Valid()
    requires |evalMatrices| == |evalNames| > 0
    requires allMatrices == [train] + evalMatrices
    modifies lib
    ensures lib.Valid()
    ensures lib.state.matrices == old(lib.state.matrices)
    ensures r.Ok? ==> !withMetrics || Iterations(round) == 0
    ensures r.Ok? ==> fresh(r.value) && r.value.lib == lib && r.value.handle == old(lib.state.next)
    ensures r.Ok? ==> (lib.log == old(lib.log) +
      TrainCalls(old(lib.state.next), train.handle, old(Handles(evalMatrices)), evalNames, parameters,
                 Iterations(round), withMetrics))
    ensures r.Ok? ==> lib.state == old(lib.state).(
      boosters := old(lib.state.boosters)[r.value.handle := Model(
        [train.handle] + old(Handles(evalMatrices)), ConstructionWrites(parameters),
        RoundEvents(train.handle, old(Handles(evalMatrices)), evalNames, Iterations(round)))],
      next := r.value.handle + 1)
    ensures r.Err? && r.error.XGBoostException? ==> r.error == XGBoostException(lib.lastError)
    ensures r.Err? && r.error.XGBoostException? ==>
      Aborted(old(lib.log), lib.log,
              TrainCalls(old(lib.state.next), train.handle, old(Handles(evalMatrices)), evalNames, parameters,
                         Iterations(round), withMetrics))
    ensures r.Err? && !r.error.XGBoostException? ==> (
      r.error == NotImplementedException && withMetrics && Iterations(round) > 0 &&
      lib.log == old(lib.log) +
        TrainCalls(old(lib.state.next), train.handle, old(Handles(evalMatrices)), evalNames, parameters,
                   Iterations(round), true))
  {
    ghost var log0 := lib.log;
    ghost var h0 := lib.state.next;
    ghost var th := train.handle;
    ghost var eh := Handles(evalMatrices);
    ghost var rounds := Iterations(round);
    ghost var create := CreateCalls([th] + eh, h0, parameters);
    ghost var training := TrainingCalls(h0, th, eh, evalNames, rounds, withMetrics);
    HandlesCons(train, evalMatrices);
    var created := Booster.Create(lib, parameters, allMatrices);
    if created.Err? {
      AbortedExtend(log0, lib.log, create, training);
      return Err(created.error);
    }
    r := RunCreated(lib, created.value, train, evalMatrices, evalNames, round, withMetrics, parameters, old(lib.state), log0, eh);
  }

  /** The rounds of `Train` on a booster just created, stated against the
      library as it was before the create call. */
  method RunCreated(lib: Library, booster: Booster, train: DMatrix, evalMatrices: seq<DMatrix>, evalNames: seq<string>,
                    round: int, withMetrics: bool, ghost parameters: Option<Parameters>,
                    ghost s0: State, ghost log0: seq<Call>, ghost eh: seq<Handle>)
    returns (r: Result<Booster>)
    requires lib.Valid() && booster.lib == lib
    requires |evalMatrices| == |evalNames| > 0
    requires eh == Handles(evalMatrices)
    requires booster.handle == s0.next
    requires lib.state == s0.(
      boosters := s0.boosters[booster.handle := Model([train.handle] + eh, ConstructionWrites(parameters), [])],
      next := booster.handle + 1)
    requires lib.log == log0 + CreateCalls([train.handle] + eh, booster.handle, parameters)
    modifies lib
    ensures lib.Valid()
    ensures lib.state.matrices == s0.matrices
    ensures r.Ok? ==> !withMetrics || Iterations(round) == 0
    ensures r.Ok? ==> r.value == booster
    ensures r.Ok? ==> (lib.log == log0 +
      TrainCalls(booster.handle, train.handle, eh, evalNames, parameters, Iterations(round), withMetrics))
    ensures r.Ok? ==> lib.state == s0.(
      boosters := s0.boosters[booster.handle := Model(
        [train.handle] + eh, ConstructionWrites(parameters), RoundEvents(train.handle, eh, evalNames, Iterations(round)))],
      next := booster.handle + 1)
    ensures r.Err? && r.error.XGBoostException? ==> r.error == XGBoostException(lib.lastError)
    ensures r.Err? && r.error.XGBoostException? ==>
      Aborted(log0, lib.log, TrainCalls(booster.handle, train.handle, eh, evalNames, parameters, Iterations(round), withMetrics))
    ensures r.Err? && !r.error.XGBoostException? ==> (
      r.error == NotImplementedException && withMetrics && Iterations(round) > 0 &&
      lib.log == log0 + TrainCalls(booster.handle, train.handle, eh, evalNames, parameters, Iterations(round), true))
  {
    ghost var h0 := booster.handle;
    ghost var th := train.handle;
    ghost var rounds := Iterations(round);
    ghost var create := CreateCalls([th] + eh, h0, parameters);
    ghost var training := TrainingCalls(h0, th, eh, evalNames, rounds, withMetrics);
    ghost var logC := lib.log;
    ghost var sC := lib.state;
    var o := RunRounds(booster, train, evalMatrices, evalNames, round, withMetrics);
    if o.Fail? {
      if o.error.XGBoostException? {
        AbortedShift(log0, create, lib.log, training);
      } else {
        assert lib.log == logC + training;
      }
      return Err(o.error);
    }
    assert lib.log == logC + training;
    CreatedThenRan(s0, sC, h0, [th] + eh, ConstructionWrites(parameters), RoundEvents(th, eh, evalNames, rounds));
    return Ok(booster);
  }

  lemma HandlesCons(m: DMatrix, ms: seq<DMatrix>)
    ensures Handles([m] + ms) == [m.handle] + Handles(ms)
  {
    assert ([m] + ms)[1..] == ms;
  }

  lemma CreatedThenRan(s0: State, s1: State, h: Handle, cache: seq<Handle>, writes: Parameters, events: seq<Event>)
    requires s1 == s0.(boosters := s0.boosters[h := Model(cache, writes, [])], next := h + 1)
    ensures WithEvents(s1, h, events) == s0.(boosters := s0.boosters[h := Model(cache, writes, events)], next := h + 1)
  {
    assert [] + events == events;
  }

  /** `XGBoost.LoadModel`: the booster's own loader. */
  method LoadModel(lib: Library, modelPath: Option<string>) returns (r: Result<Booster>)
    requires lib.Valid()
    modifies lib
    ensures lib.Valid()
    ensures lib.state.matrices == old(lib.state.matrices)
    ensures modelPath.None? ==>
      r == Err(ArgumentNullException("path")) && lib.log == old(lib.log) && lib.state == old(lib.state)
    ensures r.Ok? ==> modelPath.Some? && fresh(r.value) && r.value.lib == lib && r.value.handle == old(lib.state.next)
    ensures r.Ok? ==> lib.log == old(lib.log) + LoadCalls(old(lib.state.next), modelPath.value)
    ensures r.Ok? ==> lib.state == old(lib.state).(
      boosters := old(lib.state.boosters)[r.value.handle := Model([], [DefaultSeed], [Loaded(modelPath.value)])],
      next := r.value.handle + 1)
    ensures r.Err? && modelPath.Some? ==> r.error == XGBoostException(lib.lastError)
    ensures r.Err? && modelPath.Some? ==> Aborted(old(lib.log), lib.log, LoadCalls(old(lib.state.next), modelPath.value))
  {
    r := Booster.LoadModel(lib, modelPath);
  }
}
