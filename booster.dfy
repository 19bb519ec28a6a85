/**
 * The model wrapper of Src/XGBoost/Booster.cs: owns one native booster
 * handle; creates it over a cache of matrices, writes the default seed and
 * then the caller's parameters, drives one-iteration updates, evaluation and
 * prediction, persists the model, and releases the handle at most once.
 *
 * A `Dictionary<string, object>` of parameters is its enumeration: the
 * sequence of (key, value.ToString()) pairs, `None` standing for null.
 */
module BoosterWrapper {
  import opened NativeApi
  import opened ErrorChannel
  import opened MatrixWrapper

  type Parameters = seq<(string, string)>

  const DefaultSeed: (string, string) := ("seed", "0")

  /** The entries a parameter dictionary enumerates; a null one has none. */
  function Entries(parameters: Option<Parameters>): Parameters
  {
    if parameters.None? then [] else parameters.value
  }

  /** The keys of a dictionary are distinct. */
  ghost predicate DistinctKeys(entries: Parameters)
  {
    forall i, j :: 0 <= i < j < |entries| ==> entries[i].0 != entries[j].0
  }

  /** The parameter writes a new booster receives: the default seed first,
      then the caller's entries in enumeration order. */
  function ConstructionWrites(parameters: Option<Parameters>): Parameters
  {
    [DefaultSeed] + Entries(parameters)
  }

  /** One set-param call per write, in order. */
  function SetParamCalls(h: Handle, writes: Parameters): (calls: seq<Call>)
    ensures |calls| == |writes|
  {
    if writes == [] then []
    else SetParamCalls(h, writes[..|writes| - 1]) + [XGBoosterSetParam(h, writes[|writes| - 1].0, writes[|writes| - 1].1)]
  }

  lemma {:induction false} SetParamCallsAppend(h: Handle, a: Parameters, b: Parameters)
    ensures SetParamCalls(h, a + b) == SetParamCalls(h, a) + SetParamCalls(h, b)
    decreases |b|
  {
    if b != [] {
      var b' := b[..|b| - 1];
      assert (a + b)[..|a + b| - 1] == a + b';
      SetParamCallsAppend(h, a, b');
    } else {
      assert a + b == a;
    }
  }

  /** Call `i` sets the key and value of write `i`. */
  lemma {:induction false} SetParamCallsAt(h: Handle, writes: Parameters)
    ensures forall i :: 0 <= i < |writes| ==>
      SetParamCalls(h, writes)[i] == XGBoosterSetParam(h, writes[i].0, writes[i].1)
  {
    if writes != [] {
      var init := writes[..|writes| - 1];
      SetParamCallsAt(h, init);
      assert forall i :: 0 <= i < |init| ==> init[i] == writes[i];
    }
  }

  /** The calls for a prefix of the writes are a prefix of the calls. */
  lemma SetParamCallsPrefix(h: Handle, writes: Parameters, k: nat)
    requires k <= |writes|
    ensures SetParamCalls(h, writes)[..k] == SetParamCalls(h, writes[..k])
  {
    assert writes == writes[..k] + writes[k..];
    SetParamCallsAppend(h, writes[..k], writes[k..]);
  }

  /** The calls a successful construction makes, given the handle it gets. */
  function CreateCalls(cache: seq<Handle>, h: Handle, parameters: Option<Parameters>): seq<Call>
  {
    [XGBoosterCreate(cache, |cache|)] + SetParamCalls(h, ConstructionWrites(parameters))
  }

  /** The log of a construction whose create call succeeded: the adoption's
      outcome extends to the whole plan `[c] + rest`. */
  lemma CreateThenAdopt(log0: seq<Call>, c: Call, log1: seq<Call>, rest: seq<Call>, ok: bool)
    requires ok ==> log1 == log0 + [c] + rest
    requires !ok ==> Aborted(log0 + [c], log1, rest)
    ensures ok ==> log1 == log0 + ([c] + rest)
    ensures !ok ==> Aborted(log0, log1, [c] + rest)
  {
    if ok {
      assert log0 + [c] + rest == log0 + ([c] + rest);
    } else {
      AbortedShift(log0, [c], log1, rest);
    }
  }

  /** The value each key holds after a sequence of writes: the last write of a
      key wins. */
  function Effective(writes: Parameters): map<string, string>
  {
    if writes == [] then map[]
    else
      var last := writes[|writes| - 1];
      Effective(writes[..|writes| - 1])[last.0 := last.1]
  }

  /** A write that no later write of the same key follows is the one that holds. */
  lemma {:induction false} EffectiveLastWrite(writes: Parameters, i: nat)
    requires i < |writes|
    requires forall j :: i < j < |writes| ==> writes[j].0 != writes[i].0
    ensures writes[i].0 in Effective(writes) && Effective(writes)[writes[i].0] == writes[i].1
  {
    var last := |writes| - 1;
    if i < last {
      var init := writes[..last];
      assert forall j :: i < j < |init| ==> init[j] == writes[j];
      EffectiveLastWrite(init, i);
    }
  }

  /** A key that is never written holds no value. */
  lemma {:induction false} EffectiveUnwritten(writes: Parameters, key: string)
    requires forall j :: 0 <= j < |writes| ==> writes[j].0 != key
    ensures key !in Effective(writes)
  {
    if writes != [] {
      var init := writes[..|writes| - 1];
      assert forall j :: 0 <= j < |init| ==> init[j] == writes[j];
      EffectiveUnwritten(init, key);
    }
  }

  /** Every caller entry overrides the default; in particular a caller-given
      `seed` is the seed the booster ends up with. */
  lemma CallerParameterWins(entries: Parameters, i: nat)
    requires DistinctKeys(entries) && i < |entries|
    ensures entries[i].0 in Effective(ConstructionWrites(Some(entries)))
    ensures Effective(ConstructionWrites(Some(entries)))[entries[i].0] == entries[i].1
  {
    var writes := ConstructionWrites(Some(entries));
    assert writes[i + 1] == entries[i];
    assert forall j :: i + 1 < j < |writes| ==> writes[j] == entries[j - 1];
    EffectiveLastWrite(writes, i + 1);
  }

  /** Without a caller `seed`, the booster keeps the default seed "0". */
  lemma DefaultSeedKept(parameters: Option<Parameters>)
    requires forall j :: 0 <= j < |Entries(parameters)| ==> Entries(parameters)[j].0 != DefaultSeed.0
    ensures DefaultSeed.0 in Effective(ConstructionWrites(parameters))
    ensures Effective(ConstructionWrites(parameters))[DefaultSeed.0] == DefaultSeed.1
  {
    var writes := ConstructionWrites(parameters);
    assert forall j :: 0 < j < |writes| ==> writes[j] == Entries(parameters)[j - 1];
    EffectiveLastWrite(writes, 0);
  }

  /** A new booster holds no value for a key that is neither `seed` nor among
      the caller's entries: construction writes nothing else. */
  lemma UnlistedKeyUnset(parameters: Option<Parameters>, key: string)
    requires key != DefaultSeed.0
    requires forall j :: 0 <= j < |Entries(parameters)| ==> Entries(parameters)[j].0 != key
    ensures key !in Effective(ConstructionWrites(parameters))
  {
    var writes := ConstructionWrites(parameters);
    assert forall j :: 0 < j < |writes| ==> writes[j] == Entries(parameters)[j - 1];
    EffectiveUnwritten(writes, key);
  }

  /** The prediction option mask: the leaf bit wins over the margin bit. */
  function OptionMask(outputMargin: bool, predLeaf: bool): (mask: int)
    ensures mask == 2 <==> predLeaf
    ensures mask == 1 <==> outputMargin && !predLeaf
    ensures mask == 0 <==> !outputMargin && !predLeaf
  {
    var optionMask := if outputMargin then 1 else 0;
    if predLeaf then 2 else optionMask
  }

  /** `s` with `writes` appended to the parameter log of booster `h`, if `h`
      is live. */
  function WithParams(s: State, h: Handle, writes: Parameters): (r: State)
    ensures r.matrices == s.matrices && r.next == s.next
  {
    if h in s.boosters then
      var b := s.boosters[h];
      s.(boosters := s.boosters[h := b.(params := b.params + writes)])
    else s
  }

  lemma WithParamsNone(s: State, h: Handle)
    ensures WithParams(s, h, []) == s
  {
    if h in s.boosters {
      var b := s.boosters[h];
      assert b.params + [] == b.params;
      assert s.boosters[h := b] == s.boosters;
    }
  }

  lemma WithParamsTwice(s: State, h: Handle, a: Parameters, b: Parameters)
    ensures WithParams(WithParams(s, h, a), h, b) == WithParams(s, h, a + b)
  {
    if h in s.boosters {
      assert s.boosters[h].params + a + b == s.boosters[h].params + (a + b);
    }
  }

  lemma CreatedThenConfigured(s0: State, s1: State, h: Handle, cache: seq<Handle>, writes: Parameters)
    requires s1 == s0.(boosters := s0.boosters[h := Model(cache, [], [])], next := h + 1)
    ensures h in s1.boosters
    ensures WithParams(s1, h, writes) == s0.(boosters := s0.boosters[h := Model(cache, writes, [])], next := h + 1)
  {
    assert [] + writes == writes;
  }

  /** `s` with `events` appended to the event history of booster `h`, if `h`
      is live. */
  function WithEvents(s: State, h: Handle, events: seq<Event>): (r: State)
    ensures r.matrices == s.matrices && r.next == s.next
  {
    if h in s.boosters then
      var b := s.boosters[h];
      s.(boosters := s.boosters[h := b.(events := b.events + events)])
    else s
  }

  lemma WithEventsNone(s: State, h: Handle)
    ensures WithEvents(s, h, []) == s
  {
    if h in s.boosters {
      var b := s.boosters[h];
      assert b.events + [] == b.events;
      assert s.boosters[h := b] == s.boosters;
    }
  }

  lemma WithEventsTwice(s: State, h: Handle, a: seq<Event>, b: seq<Event>)
    ensures WithEvents(WithEvents(s, h, a), h, b) == WithEvents(s, h, a + b)
  {
    if h in s.boosters {
      assert s.boosters[h].events + a + b == s.boosters[h].events + (a + b);
    }
  }

  class Booster {
    const lib: Library
    var handle: Handle

    /** Adopts a booster handle the library has just returned. */
    constructor (lib: Library, handle: Handle)
      ensures this.lib == lib && this.handle == handle
    {
      this.lib := lib;
      this.handle := handle;
    }

    /** Creates a booster over the cache handles in order, writes `seed=0`,
        then the caller's parameters. A failed create makes no parameter
        write. */
    static method Create(lib: Library, parameters: Option<Parameters>, cacheMatrices: seq<DMatrix>)
      returns (r: Result<Booster>)
      requires lib.Valid()
      modifies lib
      ensures lib.Valid()
      ensures lib.state.matrices == old(lib.state.matrices)
      ensures r.Ok? ==> fresh(r.value) && r.value.lib == lib && r.value.handle == old(lib.state.next)
      ensures r.Ok? ==> lib.log == old(lib.log) + CreateCalls(old(Handles(cacheMatrices)), old(lib.state.next), parameters)
      ensures r.Ok? ==> lib.state == old(lib.state).(
        boosters := old(lib.state.boosters)[r.value.handle := Model(old(Handles(cacheMatrices)), ConstructionWrites(parameters), [])],
        next := r.value.handle + 1)
      ensures r.Err? ==> r.error == XGBoostException(lib.lastError)
      ensures r.Err? ==> Aborted(old(lib.log), lib.log, CreateCalls(old(Handles(cacheMatrices)), old(lib.state.next), parameters))
    {
      var matrixHandles := Handles(cacheMatrices);
      r := CreateOver(lib, parameters, matrixHandles);
    }

    /** The construction once the cache handles have been selected. */
    static method CreateOver(lib: Library, parameters: Option<Parameters>, matrixHandles: seq<Handle>)
      returns (r: Result<Booster>)
      requires lib.Valid()
      modifies lib
      ensures lib.Valid()
      ensures lib.state.matrices == old(lib.state.matrices)
      ensures r.Ok? ==> fresh(r.value) && r.value.lib == lib && r.value.handle == old(lib.state.next)
      ensures r.Ok? ==> lib.log == old(lib.log) + CreateCalls(matrixHandles, old(lib.state.next), parameters)
      ensures r.Ok? ==> lib.state == old(lib.state).(
        boosters := old(lib.state.boosters)[r.value.handle := Model(matrixHandles, ConstructionWrites(parameters), [])],
        next := r.value.handle + 1)
      ensures r.Err? ==> r.error == XGBoostException(lib.lastError)
      ensures r.Err? ==> Aborted(old(lib.log), lib.log, CreateCalls(matrixHandles, old(lib.state.next), parameters))
    {
      ghost var log0 := lib.log;
      ghost var h0 := lib.state.next;
      ghost var c := XGBoosterCreate(matrixHandles, |matrixHandles|);
      var created := CreateHandle(lib, matrixHandles);
      if created.Err? {
        AbortedAtFirst(log0, c, SetParamCalls(h0, ConstructionWrites(parameters)));
        return Err(created.error);
      }
      r := AdoptCreated(lib, created.value, parameters, matrixHandles, old(lib.state), log0);
    }

    /** `Adopt` right after a successful create, stated against the library
        as it was before the create call. */
    static method AdoptCreated(lib: Library, h: Handle, parameters: Option<Parameters>, matrixHandles: seq<Handle>,
                               ghost s0: State, ghost log0: seq<Call>)
      returns (r: Result<Booster>)
      requires lib.Valid()
      requires h == s0.next
      requires lib.state == s0.(boosters := s0.boosters[h := Model(matrixHandles, [], [])], next := h + 1)
      requires lib.log == log0 + [XGBoosterCreate(matrixHandles, |matrixHandles|)]
      modifies lib
      ensures lib.Valid()
      ensures lib.state.matrices == s0.matrices
      ensures r.Ok? ==> fresh(r.value) && r.value.lib == lib && r.value.handle == h
      ensures r.Ok? ==> lib.log == log0 + CreateCalls(matrixHandles, h, parameters)
      ensures r.Ok? ==> lib.state == s0.(
        boosters := s0.boosters[h := Model(matrixHandles, ConstructionWrites(parameters), [])],
        next := h + 1)
      ensures r.Err? ==> r.error == XGBoostException(lib.lastError)
      ensures r.Err? ==> Aborted(log0, lib.log, CreateCalls(matrixHandles, h, parameters))
    {
      CreatedThenConfigured(s0, lib.state, h, matrixHandles, ConstructionWrites(parameters));
      ghost var rest := SetParamCalls(h, ConstructionWrites(parameters));
      r := Adopt(lib, h, parameters);
      CreateThenAdopt(log0, XGBoosterCreate(matrixHandles, |matrixHandles|), lib.log, rest, r.Ok?);
    }

    /** The native create over the cache handles, checked. */
    static method CreateHandle(lib: Library, matrixHandles: seq<Handle>) returns (r: Result<Handle>)
      requires lib.Valid()
      modifies lib
      ensures lib.Valid()
      ensures lib.log == old(lib.log) + [XGBoosterCreate(matrixHandles, |matrixHandles|)] + ErrorQuery(r.Err?)
      ensures r.Ok? ==> r.value == old(lib.state.next)
      ensures r.Ok? ==>
        lib.state == old(lib.state).(boosters := old(lib.state.boosters)[r.value := Model(matrixHandles, [], [])], next := r.value + 1)
      ensures r.Err? ==> r.error == XGBoostException(lib.lastError) && lib.state == old(lib.state)
    {
      var exitCode, h := lib.XGBoosterCreateCall(matrixHandles, |matrixHandles|);
      var o := CheckError(lib, exitCode);
      if o.Fail? {
        return Err(o.error);
      }
      assert matrixHandles[..|matrixHandles|] == matrixHandles;
      return Ok(h);
    }

    /** Wraps a handle just created and makes the construction's parameter
        writes on it. */
    static method Adopt(lib: Library, h: Handle, parameters: Option<Parameters>) returns (r: Result<Booster>)
      requires lib.Valid()
      modifies lib
      ensures lib.Valid()
      ensures lib.state.matrices == old(lib.state.matrices) && lib.state.next == old(lib.state.next)
      ensures r.Ok? ==> fresh(r.value) && r.value.lib == lib && r.value.handle == h
      ensures r.Ok? ==> lib.log == old(lib.log) + SetParamCalls(h, ConstructionWrites(parameters))
      ensures r.Ok? ==> h in old(lib.state.boosters) &&
                        lib.state == WithParams(old(lib.state), h, ConstructionWrites(parameters))
      ensures r.Err? ==> r.error == XGBoostException(lib.lastError)
      ensures r.Err? ==> Aborted(old(lib.log), lib.log, SetParamCalls(h, ConstructionWrites(parameters)))
    {
      var booster := new Booster(lib, h);
      var o := booster.Configure(parameters);
      if o.Fail? {
        return Err(o.error);
      }
      return Ok(booster);
    }

    /** The parameter writes of construction: the default seed, then the
        caller's entries; the first failure stops them. */
    method Configure(parameters: Option<Parameters>) returns (o: Outcome)
      requires lib.Valid()
      modifies lib
      ensures lib.Valid()
      ensures lib.state.matrices == old(lib.state.matrices) && lib.state.next == old(lib.state.next)
      ensures o.Pass? ==> lib.log == old(lib.log) + SetParamCalls(handle, ConstructionWrites(parameters))
      ensures o.Pass? ==> handle in old(lib.state.boosters) &&
                          lib.state == WithParams(old(lib.state), handle, ConstructionWrites(parameters))
      ensures o.Fail? ==> o.error == XGBoostException(lib.lastError)
      ensures o.Fail? ==> Aborted(old(lib.log), lib.log, SetParamCalls(handle, ConstructionWrites(parameters)))
    {
      ghost var log0 := lib.log;
      ghost var s0 := lib.state;
      ghost var seedCall := XGBoosterSetParam(handle, DefaultSeed.0, DefaultSeed.1);
      ghost var entryCalls := SetParamCalls(handle, Entries(parameters));
      SetParamCallsAppend(handle, [DefaultSeed], Entries(parameters));
      assert SetParamCalls(handle, [DefaultSeed]) == [seedCall];
      assert SetParamCalls(handle, ConstructionWrites(parameters)) == [seedCall] + entryCalls;
      o := SetParameter(DefaultSeed.0, DefaultSeed.1);
      if o.Fail? {
        AbortedAtFirst(log0, seedCall, entryCalls);
        return;
      }
      ghost var log1 := lib.log;
      assert log1 == log0 + [seedCall];
      o := SetParameters(parameters);
      if o.Fail? {
        AbortedShift(log0, [seedCall], lib.log, entryCalls);
        return;
      }
      assert lib.log == log1 + entryCalls;
      assert log1 + entryCalls == log0 + ([seedCall] + entryCalls);
      WithParamsTwice(s0, handle, [DefaultSeed], Entries(parameters));
    }

    /** Builds a booster with no parameters and no cache, then loads the file
        into that same handle and returns it. */
    static method LoadModel(lib: Library, path: Option<string>) returns (r: Result<Booster>)
      requires lib.Valid()
      modifies lib
      ensures lib.Valid()
      ensures lib.state.matrices == old(lib.state.matrices)
      ensures path.None? ==>
        r == Err(ArgumentNullException("path")) && lib.log == old(lib.log) && lib.state == old(lib.state)
      ensures r.Ok? ==> path.Some? && fresh(r.value) && r.value.lib == lib && r.value.handle == old(lib.state.next)
      ensures r.Ok? ==> lib.log == old(lib.log) + LoadCalls(old(lib.state.next), path.value)
      ensures r.Ok? ==> lib.state == old(lib.state).(
        boosters := old(lib.state.boosters)[r.value.handle := Model([], [DefaultSeed], [Loaded(path.value)])],
        next := r.value.handle + 1)
      ensures r.Err? && path.Some? ==> r.error == XGBoostException(lib.lastError)
      ensures r.Err? && path.Some? ==> Aborted(old(lib.log), lib.log, LoadCalls(old(lib.state.next), path.value))
    {
      if path.None? {
        return Err(ArgumentNullException("path"));
      }
      ghost var log0 := lib.log;
      ghost var h0 := lib.state.next;
      var created := Create(lib, Some([]), []);
      if created.Err? {
        AbortedExtend(log0, lib.log, CreateCalls([], h0, Some([])), [XGBoosterLoadModel(h0, path.value)]);
        return Err(created.error);
      }
      var booster := created.value;
      assert ConstructionWrites(Some([])) == [DefaultSeed];
      assert Handles([]) == [];
      ghost var fresh0 := Model([], [DefaultSeed], []);
      assert lib.state.boosters == old(lib.state.boosters)[h0 := fresh0];
      var exitCode := lib.XGBoosterLoadModelCall(booster.handle, path.value);
      var o := CheckError(lib, exitCode);
      if o.Fail? {
        ghost var planned := LoadCalls(h0, path.value);
        assert planned[..|planned|] == planned;
        return Err(o.error);
      }
      assert fresh0.events + [Loaded(path.value)] == [Loaded(path.value)];
      return Ok(booster);
    }

    /** One native parameter write. */
    method SetParameter(key: string, value: string) returns (o: Outcome)
      requires lib.Valid()
      modifies lib
      ensures lib.Valid()
      ensures lib.log == old(lib.log) + [XGBoosterSetParam(handle, key, value)] + ErrorQuery(o.Fail?)
      ensures o.Pass? ==> handle in old(lib.state.boosters) && lib.state == WithParams(old(lib.state), handle, [(key, value)])
      ensures o.Fail? ==> o.error == XGBoostException(lib.lastError) && lib.state == old(lib.state)
    {
      var exitCode := lib.XGBoosterSetParamCall(handle, key, value);
      o := CheckError(lib, exitCode);
    }

    /** One native write per entry, in enumeration order; a null dictionary
        makes no call. The first failure stops the writes. */
    method SetParameters(parameters: Option<Parameters>) returns (o: Outcome)
      requires lib.Valid()
      modifies lib
      ensures lib.Valid()
      ensures lib.state.matrices == old(lib.state.matrices) && lib.state.next == old(lib.state.next)
      ensures o.Pass? ==> lib.log == old(lib.log) + SetParamCalls(handle, Entries(parameters))
      ensures o.Pass? ==> lib.state == WithParams(old(lib.state), handle, Entries(parameters))
      ensures o.Pass? && Entries(parameters) != [] ==> handle in old(lib.state.boosters)
      ensures o.Fail? ==> o.error == XGBoostException(lib.lastError)
      ensures o.Fail? ==> Aborted(old(lib.log), lib.log, SetParamCalls(handle, Entries(parameters)))
    {
      o := Pass;
      var entries := Entries(parameters);
      WithParamsNone(lib.state, handle);
      for i := 0 to |entries|
        invariant lib.Valid()
        invariant lib.log == old(lib.log) + SetParamCalls(handle, entries[..i])
        invariant o.Pass?
        invariant lib.state == WithParams(old(lib.state), handle, entries[..i])
        invariant i > 0 ==> handle in old(lib.state.boosters)
      {
        ghost var call := XGBoosterSetParam(handle, entries[i].0, entries[i].1);
        ghost var done := SetParamCalls(handle, entries[..i]);
        assert entries[..i + 1] == entries[..i] + [entries[i]];
        assert SetParamCalls(handle, entries[..i + 1]) == done + [call];
        o := SetParameter(entries[i].0, entries[i].1);
        if o.Fail? {
          SetParamCallsPrefix(handle, entries, i + 1);
          assert lib.log == old(lib.log) + (done + [call]) + [XGBGetLastError];
          return;
        }
        assert lib.log == old(lib.log) + (done + [call]);
        WithParamsTwice(old(lib.state), handle, entries[..i], [entries[i]]);
      }
      assert entries[..|entries|] == entries;
    }

    /** One boosting round on `train` with the caller's iteration number. */
    method Update(train: DMatrix, iter: int) returns (o: Outcome)
      requires lib.Valid()
      modifies lib
      ensures lib.Valid()
      ensures lib.log == old(lib.log) + [XGBoosterUpdateOneIter(handle, iter, train.GetHandle())] + ErrorQuery(o.Fail?)
      ensures o.Pass? ==> handle in old(lib.state.boosters) && train.GetHandle() in lib.state.matrices &&
                          lib.state == WithEvents(old(lib.state), handle, [Updated(iter, train.GetHandle())])
      ensures o.Fail? ==> o.error == XGBoostException(lib.lastError) && lib.state == old(lib.state)
    {
      var exitCode := lib.XGBoosterUpdateOneIterCall(handle, iter, train.GetHandle());
      o := CheckError(lib, exitCode);
    }

    /** One round from caller-supplied gradient and hessian, which must have
        the same length; a mismatch is rejected before any native call. */
    method Boost(train: DMatrix, grad: seq<Float>, hess: seq<Float>) returns (o: Outcome)
      requires lib.Valid()
      modifies lib
      ensures lib.Valid()
      ensures |grad| != |hess| ==> o == Fail(ArgumentException("grad/hess", |grad|, |hess|)) &&
                                   lib.log == old(lib.log) && lib.state == old(lib.state)
      ensures |grad| == |hess| ==>
        lib.log == old(lib.log) + [XGBoosterBoostOneIter(handle, train.GetHandle(), grad, hess, |grad|)] + ErrorQuery(o.Fail?)
      ensures |grad| == |hess| && o.Pass? ==> (handle in old(lib.state.boosters) &&
        lib.state == WithEvents(old(lib.state), handle, [Boosted(train.GetHandle(), grad, hess)]))
      ensures |grad| == |hess| && o.Fail? ==> o.error == XGBoostException(lib.lastError) && lib.state == old(lib.state)
    {
      if |grad| != |hess| {
        return Fail(ArgumentException("grad/hess", |grad|, |hess|));
      }
      var exitCode := lib.XGBoosterBoostOneIterCall(handle, train.GetHandle(), grad, hess, |grad|);
      assert grad[..|grad|] == grad && hess[..|hess|] == hess;
      o := CheckError(lib, exitCode);
    }

    /** Evaluates the matrices under their names (same order, same count);
        unequal counts are rejected before any native call. */
    method EvalSet(evalMatrices: seq<DMatrix>, evalNames: seq<string>, iter: int) returns (r: Result<string>)
      requires lib.Valid()
      modifies lib
      ensures lib.Valid()
      ensures |evalMatrices| != |evalNames| ==>
        r == Err(ArgumentException("evalMatrices/evalNames", |evalMatrices|, |evalNames|)) &&
        lib.log == old(lib.log) && lib.state == old(lib.state)
      ensures |evalMatrices| == |evalNames| ==>
        lib.log == old(lib.log) + [XGBoosterEvalOneIter(handle, iter, Handles(evalMatrices), evalNames, |evalNames|)] +
                   ErrorQuery(r.Err?)
      ensures |evalMatrices| == |evalNames| && r.Ok? ==> (r.value == lib.evalText && handle in old(lib.state.boosters) &&
        lib.state == WithEvents(old(lib.state), handle, [Evaluated(iter, Handles(evalMatrices), evalNames)]))
      ensures |evalMatrices| == |evalNames| && r.Err? ==> r.error == XGBoostException(lib.lastError) && lib.state == old(lib.state)
    {
      if |evalMatrices| != |evalNames| {
        return Err(ArgumentException("evalMatrices/evalNames", |evalMatrices|, |evalNames|));
      }
      var handles := Handles(evalMatrices);
      var exitCode, evalInfo := lib.XGBoosterEvalOneIterCall(handle, iter, handles, evalNames, |handles|);
      assert handles[..|handles|] == handles && evalNames[..|evalNames|] == evalNames;
      var o := CheckError(lib, exitCode);
      if o.Fail? {
        return Err(o.error);
      }
      return Ok(evalInfo);
    }

    /** The overload that would also return one metric per matrix. */
    method EvalSetWithMetrics(evalMatrices: seq<DMatrix>, evalNames: seq<string>, iter: int)
      returns (r: Result<(string, seq<Float>)>)
      ensures r == Err(NotImplementedException)
    {
      return Err(NotImplementedException);
    }

    /** Scores `data` and copies the native result, of the reported length,
        into a new flat array. */
    method Predict(data: DMatrix, outputMargin: bool, treeLimit: int, predLeaf: bool) returns (r: Result<array<Float>>)
      modifies lib
      ensures lib.state == old(lib.state)
      ensures lib.log == old(lib.log) + [XGBoosterPredict(handle, data.GetHandle(), OptionMask(outputMargin, predLeaf), treeLimit)] +
                         ErrorQuery(r.Err?)
      ensures r.Ok? ==> fresh(r.value) && r.value[..] == lib.output
      ensures r.Ok? ==> handle in lib.state.boosters && data.GetHandle() in lib.state.matrices
      ensures r.Err? ==> r.error == XGBoostException(lib.lastError)
    {
      var optionMask := OptionMask(outputMargin, predLeaf);
      var exitCode, predictionsLength := lib.XGBoosterPredictCall(handle, data.GetHandle(), optionMask, treeLimit);
      var o := CheckError(lib, exitCode);
      if o.Fail? {
        return Err(o.error);
      }
      var rawPredicts := new Float[predictionsLength];
      MarshalCopy(lib.output, rawPredicts, predictionsLength);
      assert rawPredicts[..] == rawPredicts[..predictionsLength];
      return Ok(rawPredicts);
    }

    method PredictLeaf(data: DMatrix, treeLimit: int) returns (r: Result<seq<seq<Float>>>)
      ensures r == Err(NotImplementedException)
    {
      return Err(NotImplementedException);
    }

    /** The `Predict(data)` overload. */
    method PredictDefault(data: DMatrix) returns (r: Result<seq<seq<Float>>>)
      ensures r == Err(NotImplementedException)
    {
      return Err(NotImplementedException);
    }

    /** The `Predict(data, outputMargin)` overload. */
    method PredictWithMargin(data: DMatrix, outputMargin: bool) returns (r: Result<seq<seq<Float>>>)
      ensures r == Err(NotImplementedException)
    {
      return Err(NotImplementedException);
    }

    /** The `Predict(data, outputMargin, treeLimit)` overload. */
    method PredictWithLimit(data: DMatrix, outputMargin: bool, treeLimit: int) returns (r: Result<seq<seq<Float>>>)
      ensures r == Err(NotImplementedException)
    {
      return Err(NotImplementedException);
    }

    method SaveModel(modelPath: string) returns (o: Outcome)
      modifies lib
      ensures lib.state == old(lib.state)
      ensures lib.log == old(lib.log) + [XGBoosterSaveModel(handle, modelPath)] + ErrorQuery(o.Fail?)
      ensures o.Pass? ==> handle in lib.state.boosters
      ensures o.Fail? ==> o.error == XGBoostException(lib.lastError)
    {
      var exitCode := lib.XGBoosterSaveModelCall(handle, modelPath);
      o := CheckError(lib, exitCode);
    }

    method GetModelDump(featureName: string, withStats: bool) returns (r: Result<seq<string>>)
      ensures r == Err(NotImplementedException)
    {
      return Err(NotImplementedException);
    }

    method GetFeatureScore(featureMap: string) returns (r: Result<map<string, int>>)
      ensures r == Err(NotImplementedException)
    {
      return Err(NotImplementedException);
    }

    /** Frees the handle if one is held and forgets it; never fails, and a
        second call makes no native call. */
    method Dispose()
      requires lib.Valid()
      modifies this, lib
      ensures lib.Valid()
      ensures handle == 0
      ensures old(handle) != 0 ==> (lib.log == old(lib.log) + [XGBoosterFree(old(handle))] &&
        lib.state == old(lib.state).(boosters := old(lib.state.boosters) - {old(handle)}))
      ensures old(handle) == 0 ==> lib.log == old(lib.log) && lib.state == old(lib.state)
    {
      if handle != 0 {
        var _ := lib.XGBoosterFreeCall(handle);
        handle := 0;
      }
    }
  }

  /** The calls of a successful `LoadModel` that got handle `h`. */
  function LoadCalls(h: Handle, path: string): seq<Call>
  {
    CreateCalls([], h, Some([])) + [XGBoosterLoadModel(h, path)]
  }
}
