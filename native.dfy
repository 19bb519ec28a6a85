/**
 * The native gradient-boosting library as seen through its C function table
 * (Src/XGBoost/XGBoostNative.cs). Its behaviour is foreign, so it is modelled
 * as an abstract state machine: the live matrix and booster handles with what
 * each one records, the text of the last error, the buffer a returned pointer
 * points to, and a ghost log of every call made into it.
 *
 * Outcome discipline of the model:
 *  - a call that only reads or frees a handle succeeds exactly when that handle
 *    is live;
 *  - every other call may fail for reasons this layer cannot see (I/O, bad
 *    parameters, memory), so its status is chosen nondeterministically;
 *  - a failing call changes nothing but the log and the last-error text.
 */
module NativeApi {

  /** An `IntPtr` handle; 0 is `IntPtr.Zero`. */
  type Handle = nat

  /** A `float` of the managed side (IEEE semantics are not modelled). */
  type Float = real

  const UInt64Modulus: int := 0x1_0000_0000_0000_0000
  const Int32Modulus: int := 0x1_0000_0000
  const Int32Max: int := 0x7fff_ffff

  /** C#'s `(ulong)x` for an `int` x: two's-complement reinterpretation. */
  function ToUInt64(x: int): (r: nat)
    ensures r < UInt64Modulus
    ensures (r - x) % UInt64Modulus == 0
    ensures 0 <= x < UInt64Modulus ==> r == x
  {
    x % UInt64Modulus
  }

  /** C#'s unchecked `(int)n` for a `ulong` n: keep the low 32 bits, signed. */
  function ToInt32(n: nat): (r: int)
    ensures -Int32Max - 1 <= r <= Int32Max
    ensures (r - n) % Int32Modulus == 0
  {
    var low := n % Int32Modulus;
    if low <= Int32Max then low else low - Int32Modulus
  }

  /** Any `int` that goes out as `(ulong)n` and comes back as `(int)` is
      unchanged: a negative count wraps to a huge unsigned value on the way
      out and wraps back on the way in. */
  lemma CountRoundTrip(n: int)
    requires -Int32Max - 1 <= n <= Int32Max
    ensures ToInt32(ToUInt64(n)) == n
  {
    if n >= 0 {
      assert ToUInt64(n) == n;
      assert n % Int32Modulus == n;
    } else {
      assert ToUInt64(n) == n + UInt64Modulus;
      assert (n + UInt64Modulus) % Int32Modulus == n + Int32Modulus;
    }
  }

  /** One entry of the call log: the native function and its arguments. */
  datatype Call =
    | XGBGetLastError
    | XGDMatrixCreateFromFile(fname: string, silent: int)
    | XGDMatrixCreateFromMat(data: seq<Float>, nrow: nat, ncol: nat, missing: Float)
    | XGDMatrixNumRow(handle: Handle)
    | XGDMatrixNumCol(handle: Handle)
    | XGDMatrixFree(handle: Handle)
    | XGDMatrixGetFloatInfo(handle: Handle, field: string)
    | XGDMatrixSetFloatInfo(handle: Handle, field: string, values: seq<Float>, length: nat)
    | XGDMatrixSliceDMatrix(handle: Handle, idxset: seq<int>, length: nat)
    | XGBoosterCreate(dmats: seq<Handle>, length: nat)
    | XGBoosterFree(handle: Handle)
    | XGBoosterSetParam(handle: Handle, name: string, val: string)
    | XGBoosterUpdateOneIter(handle: Handle, iter: int, dtrain: Handle)
    | XGBoosterBoostOneIter(handle: Handle, dtrain: Handle, grad: seq<Float>, hess: seq<Float>, length: nat)
    | XGBoosterEvalOneIter(handle: Handle, iter: int, dmats: seq<Handle>, names: seq<string>, length: nat)
    | XGBoosterPredict(handle: Handle, dmat: Handle, optionMask: int, ntreeLimit: int)
    | XGBoosterSaveModel(handle: Handle, fname: string)
    | XGBoosterLoadModel(handle: Handle, fname: string)

  /** What the native layer records about a live matrix. */
  datatype Matrix = Matrix(rows: nat, cols: nat, info: map<string, seq<Float>>)

  /** The float vector stored under `field`; a field never set reads as empty. */
  function FloatInfo(m: Matrix, field: string): seq<Float>
  {
    if field in m.info then m.info[field] else []
  }

  /** A training step or evaluation as recorded by a booster. */
  datatype Event =
    | Updated(iter: int, dtrain: Handle)
    | Boosted(dtrain: Handle, grad: seq<Float>, hess: seq<Float>)
    | Evaluated(iter: int, dmats: seq<Handle>, names: seq<string>)
    | Loaded(fname: string)

  /** What the native layer records about a live booster: the cache it was
      created over, every parameter write in order, every step in order. */
  datatype Model = Model(cache: seq<Handle>, params: seq<(string, string)>, events: seq<Event>)

  datatype State = State(matrices: map<Handle, Matrix>, boosters: map<Handle, Model>, next: Handle)

  /** The handle store: every live handle is non-zero and below the next
      one to be handed out. */
  ghost predicate StoreValid(s: State)
  {
    && s.next >= 1
    && (forall h :: h in s.matrices ==> 0 < h < s.next)
    && (forall h :: h in s.boosters ==> 0 < h < s.next)
  }

  /** `Marshal.Copy(source, destination, 0, length)`: copies the first `length`
      floats of a native buffer into a managed array. */
  method MarshalCopy(source: seq<Float>, destination: array<Float>, length: nat)
    requires length <= |source| && length <= destination.Length
    modifies destination
    ensures destination[..length] == source[..length]
    ensures destination[length..] == old(destination[length..])
  {
    for i := 0 to length
      invariant destination[..i] == source[..i]
      invariant destination[length..] == old(destination[length..])
    {
      destination[i] := source[i];
    }
  }

  class Library {
    var state: State
    /** Message of the most recent failure, as `XGBGetLastError` returns it. */
    var lastError: string
    /** The float buffer behind the pointer the last buffer-returning call gave back. */
    var output: seq<Float>
    /** The evaluation text the last `XGBoosterEvalOneIter` gave back. */
    var evalText: string
    ghost var log: seq<Call>

    ghost predicate Valid()
      reads this`state
    {
      StoreValid(state)
    }

    constructor ()
      ensures Valid()
      ensures state == State(map[], map[], 1) && log == []
    {
      state := State(map[], map[], 1);
      lastError := "";
      output := [];
      evalText := "";
      log := [];
    }

    /** Records a failed call: only the last-error text changes. */
    method Fail()
      modifies this`lastError
    {
      var message: string := *;
      lastError := message;
    }

    method XGBGetLastErrorCall() returns (message: string)
      modifies this`log
      ensures log == old(log) + [XGBGetLastError]
      ensures message == lastError
    {
      log := log + [XGBGetLastError];
      message := lastError;
    }

    method XGDMatrixCreateFromFileCall(fname: string, silent: int) returns (status: int, handle: Handle)
      requires Valid()
      modifies this
      ensures Valid()
      ensures log == old(log) + [XGDMatrixCreateFromFile(fname, silent)]
      ensures output == old(output) && evalText == old(evalText)
      ensures status != 0 ==> state == old(state)
      ensures status == 0 ==> lastError == old(lastError)
      ensures status == 0 ==> (handle == old(state.next) &&
        handle in state.matrices &&
        state == old(state).(matrices := old(state.matrices)[handle := state.matrices[handle]], next := handle + 1))
    {
      log := log + [XGDMatrixCreateFromFile(fname, silent)];
      status := *;
      handle := *;
      if status == 0 {
        var m: Matrix := *;
        handle := state.next;
        state := state.(matrices := state.matrices[handle := m], next := handle + 1);
      } else {
        Fail();
      }
    }

    method XGDMatrixCreateFromMatCall(data: seq<Float>, nrow: nat, ncol: nat, missing: Float)
      returns (status: int, handle: Handle)
      requires Valid()
      modifies this
      ensures Valid()
      ensures log == old(log) + [XGDMatrixCreateFromMat(data, nrow, ncol, missing)]
      ensures output == old(output) && evalText == old(evalText)
      ensures status != 0 ==> state == old(state)
      ensures status == 0 ==> lastError == old(lastError)
      ensures status == 0 ==> (handle == old(state.next) &&
        state == old(state).(matrices := old(state.matrices)[handle := Matrix(nrow, ncol, map[])], next := handle + 1))
    {
      log := log + [XGDMatrixCreateFromMat(data, nrow, ncol, missing)];
      status := *;
      handle := *;
      if status == 0 {
        handle := state.next;
        state := state.(matrices := state.matrices[handle := Matrix(nrow, ncol, map[])], next := handle + 1);
      } else {
        Fail();
      }
    }

    method XGDMatrixNumRowCall(handle: Handle) returns (status: int, nrow: nat)
      modifies this
      ensures log == old(log) + [XGDMatrixNumRow(handle)]
      ensures state == old(state) && output == old(output) && evalText == old(evalText)
      ensures status == 0 <==> handle in state.matrices
      ensures status == 0 ==> lastError == old(lastError) && nrow == state.matrices[handle].rows
    {
      log := log + [XGDMatrixNumRow(handle)];
      nrow := *;
      if handle in state.matrices {
        status, nrow := 0, state.matrices[handle].rows;
      } else {
        status := -1;
        Fail();
      }
    }

    method XGDMatrixNumColCall(handle: Handle) returns (status: int, ncol: nat)
      modifies this
      ensures log == old(log) + [XGDMatrixNumCol(handle)]
      ensures state == old(state) && output == old(output) && evalText == old(evalText)
      ensures status == 0 <==> handle in state.matrices
      ensures status == 0 ==> lastError == old(lastError) && ncol == state.matrices[handle].cols
    {
      log := log + [XGDMatrixNumCol(handle)];
      ncol := *;
      if handle in state.matrices {
        status, ncol := 0, state.matrices[handle].cols;
      } else {
        status := -1;
        Fail();
      }
    }

    method XGDMatrixFreeCall(handle: Handle) returns (status: int)
      requires Valid()
      modifies this
      ensures Valid()
      ensures log == old(log) + [XGDMatrixFree(handle)]
      ensures output == old(output) && evalText == old(evalText)
      ensures status == 0 <==> handle in old(state.matrices)
      ensures state == old(state).(matrices := old(state.matrices) - {handle})
    {
      log := log + [XGDMatrixFree(handle)];
      if handle in state.matrices {
        status := 0;
        state := state.(matrices := state.matrices - {handle});
      } else {
        status := -1;
        Fail();
      }
    }

    /** Points `output` at the stored vector and reports its length. */
    method XGDMatrixGetFloatInfoCall(handle: Handle, field: string) returns (status: int, length: nat)
      modifies this
      ensures log == old(log) + [XGDMatrixGetFloatInfo(handle, field)]
      ensures state == old(state) && evalText == old(evalText)
      ensures status == 0 <==> handle in state.matrices
      ensures status == 0 ==> (lastError == old(lastError) &&
        output == FloatInfo(state.matrices[handle], field) && length == |output|)
      ensures status != 0 ==> output == old(output)
    {
      log := log + [XGDMatrixGetFloatInfo(handle, field)];
      length := *;
      if handle in state.matrices {
        status := 0;
        output := FloatInfo(state.matrices[handle], field);
        length := |output|;
      } else {
        status := -1;
        Fail();
      }
    }

    /** Stores the first `length` of `values` under `field`. */
    method XGDMatrixSetFloatInfoCall(handle: Handle, field: string, values: seq<Float>, length: nat)
      returns (status: int)
      requires Valid()
      modifies this
      ensures Valid()
      ensures log == old(log) + [XGDMatrixSetFloatInfo(handle, field, values, length)]
      ensures output == old(output) && evalText == old(evalText)
      ensures status != 0 ==> state == old(state)
      ensures status == 0 ==> (lastError == old(lastError) && handle in old(state.matrices) && length <= |values| &&
        var m := old(state.matrices)[handle];
        state == old(state).(matrices := old(state.matrices)[handle := m.(info := m.info[field := values[..length]])]))
    {
      log := log + [XGDMatrixSetFloatInfo(handle, field, values, length)];
      status := *;
      if status == 0 && handle in state.matrices && length <= |values| {
        var m := state.matrices[handle];
        state := state.(matrices := state.matrices[handle := m.(info := m.info[field := values[..length]])]);
      } else {
        if status == 0 { status := -1; }
        Fail();
      }
    }

    /** A new matrix holding `length` rows of the source; its float fields are
        the library's business. */
    method XGDMatrixSliceDMatrixCall(handle: Handle, idxset: seq<int>, length: nat) returns (status: int, sliced: Handle)
      requires Valid()
      modifies this
      ensures Valid()
      ensures log == old(log) + [XGDMatrixSliceDMatrix(handle, idxset, length)]
      ensures output == old(output) && evalText == old(evalText)
      ensures status != 0 ==> state == old(state)
      ensures status == 0 ==> (lastError == old(lastError) && handle in old(state.matrices) && sliced == old(state.next) &&
        sliced in state.matrices &&
        state.matrices[sliced].rows == length && state.matrices[sliced].cols == old(state.matrices)[handle].cols &&
        state == old(state).(matrices := old(state.matrices)[sliced := state.matrices[sliced]], next := sliced + 1))
    {
      log := log + [XGDMatrixSliceDMatrix(handle, idxset, length)];
      status := *;
      sliced := *;
      if status == 0 && handle in state.matrices {
        var info: map<string, seq<Float>> := *;
        sliced := state.next;
        state := state.(matrices := state.matrices[sliced := Matrix(length, state.matrices[handle].cols, info)],
                        next := sliced + 1);
      } else {
        if status == 0 { status := -1; }
        Fail();
      }
    }

    /** A new booster over the first `length` cache handles, with no parameter
        written and no step taken. */
    method XGBoosterCreateCall(dmats: seq<Handle>, length: nat) returns (status: int, handle: Handle)
      requires Valid()
      modifies this
      ensures Valid()
      ensures log == old(log) + [XGBoosterCreate(dmats, length)]
      ensures output == old(output) && evalText == old(evalText)
      ensures status != 0 ==> state == old(state)
      ensures status == 0 ==> (lastError == old(lastError) && length <= |dmats| && handle == old(state.next) &&
        state == old(state).(boosters := old(state.boosters)[handle := Model(dmats[..length], [], [])], next := handle + 1))
    {
      log := log + [XGBoosterCreate(dmats, length)];
      status := *;
      handle := *;
      if status == 0 && length <= |dmats| {
        handle := state.next;
        state := state.(boosters := state.boosters[handle := Model(dmats[..length], [], [])], next := handle + 1);
      } else {
        if status == 0 { status := -1; }
        Fail();
      }
    }

    method XGBoosterFreeCall(handle: Handle) returns (status: int)
      requires Valid()
      modifies this
      ensures Valid()
      ensures log == old(log) + [XGBoosterFree(handle)]
      ensures output == old(output) && evalText == old(evalText)
      ensures status == 0 <==> handle in old(state.boosters)
      ensures state == old(state).(boosters := old(state.boosters) - {handle})
    {
      log := log + [XGBoosterFree(handle)];
      if handle in state.boosters {
        status := 0;
        state := state.(boosters := state.boosters - {handle});
      } else {
        status := -1;
        Fail();
      }
    }

    method XGBoosterSetParamCall(handle: Handle, name: string, val: string) returns (status: int)
      requires Valid()
      modifies this
      ensures Valid()
      ensures log == old(log) + [XGBoosterSetParam(handle, name, val)]
      ensures output == old(output) && evalText == old(evalText)
      ensures status != 0 ==> state == old(state)
      ensures status == 0 ==> (lastError == old(lastError) && handle in old(state.boosters) &&
        var b := old(state.boosters)[handle];
        state == old(state).(boosters := old(state.boosters)[handle := b.(params := b.params + [(name, val)])]))
    {
      log := log + [XGBoosterSetParam(handle, name, val)];
      status := *;
      if status == 0 && handle in state.boosters {
        var b := state.boosters[handle];
        state := state.(boosters := state.boosters[handle := b.(params := b.params + [(name, val)])]);
      } else {
        if status == 0 { status := -1; }
        Fail();
      }
    }

    /** Appends `e` to the events of a live booster. */
    method Record(handle: Handle, e: Event)
      requires handle in state.boosters
      modifies this`state
      ensures var b := old(state.boosters)[handle];
        state == old(state).(boosters := old(state.boosters)[handle := b.(events := b.events + [e])])
    {
      var b := state.boosters[handle];
      state := state.(boosters := state.boosters[handle := b.(events := b.events + [e])]);
    }

    method XGBoosterUpdateOneIterCall(handle: Handle, iter: int, dtrain: Handle) returns (status: int)
      requires Valid()
      modifies this
      ensures Valid()
      ensures log == old(log) + [XGBoosterUpdateOneIter(handle, iter, dtrain)]
      ensures output == old(output) && evalText == old(evalText)
      ensures status != 0 ==> state == old(state)
      ensures status == 0 ==> (lastError == old(lastError) && handle in old(state.boosters) && dtrain in old(state.matrices) &&
        var b := old(state.boosters)[handle];
        state == old(state).(boosters := old(state.boosters)[handle := b.(events := b.events + [Updated(iter, dtrain)])]))
    {
      log := log + [XGBoosterUpdateOneIter(handle, iter, dtrain)];
      status := *;
      if status == 0 && handle in state.boosters && dtrain in state.matrices {
        Record(handle, Updated(iter, dtrain));
      } else {
        if status == 0 { status := -1; }
        Fail();
      }
    }

    method XGBoosterBoostOneIterCall(handle: Handle, dtrain: Handle, grad: seq<Float>, hess: seq<Float>, length: nat)
      returns (status: int)
      requires Valid()
      modifies this
      ensures Valid()
      ensures log == old(log) + [XGBoosterBoostOneIter(handle, dtrain, grad, hess, length)]
      ensures output == old(output) && evalText == old(evalText)
      ensures status != 0 ==> state == old(state)
      ensures status == 0 ==> (lastError == old(lastError) && handle in old(state.boosters) && dtrain in old(state.matrices) &&
        length <= |grad| && length <= |hess| &&
        var b := old(state.boosters)[handle];
        state == old(state).(boosters := old(state.boosters)[handle :=
          b.(events := b.events + [Boosted(dtrain, grad[..length], hess[..length])])]))
    {
      log := log + [XGBoosterBoostOneIter(handle, dtrain, grad, hess, length)];
      status := *;
      if status == 0 && handle in state.boosters && dtrain in state.matrices && length <= |grad| && length <= |hess| {
        Record(handle, Boosted(dtrain, grad[..length], hess[..length]));
      } else {
        if status == 0 { status := -1; }
        Fail();
      }
    }

    /** Evaluates the first `length` matrices; the summary text is opaque. */
    method XGBoosterEvalOneIterCall(handle: Handle, iter: int, dmats: seq<Handle>, names: seq<string>, length: nat)
      returns (status: int, result: string)
      requires Valid()
      modifies this
      ensures Valid()
      ensures log == old(log) + [XGBoosterEvalOneIter(handle, iter, dmats, names, length)]
      ensures output == old(output)
      ensures status != 0 ==> state == old(state) && evalText == old(evalText)
      ensures status == 0 ==> (lastError == old(lastError) && result == evalText &&
        handle in old(state.boosters) && length <= |dmats| && length <= |names| &&
        (forall i :: 0 <= i < length ==> dmats[i] in old(state.matrices)) &&
        var b := old(state.boosters)[handle];
        state == old(state).(boosters := old(state.boosters)[handle :=
          b.(events := b.events + [Evaluated(iter, dmats[..length], names[..length])])]))
    {
      log := log + [XGBoosterEvalOneIter(handle, iter, dmats, names, length)];
      status := *;
      result := *;
      if status == 0 && handle in state.boosters && length <= |dmats| && length <= |names| &&
         forall i :: 0 <= i < length ==> dmats[i] in state.matrices {
        Record(handle, Evaluated(iter, dmats[..length], names[..length]));
        var text: string := *;
        evalText, result := text, text;
      } else {
        if status == 0 { status := -1; }
        Fail();
      }
    }

    /** Points `output` at the predictions (opaque values) and reports their count. */
    method XGBoosterPredictCall(handle: Handle, dmat: Handle, optionMask: int, ntreeLimit: int)
      returns (status: int, length: nat)
      modifies this
      ensures log == old(log) + [XGBoosterPredict(handle, dmat, optionMask, ntreeLimit)]
      ensures state == old(state) && evalText == old(evalText)
      ensures status != 0 ==> output == old(output)
      ensures status == 0 ==> (lastError == old(lastError) &&
        handle in state.boosters && dmat in state.matrices && length == |output|)
    {
      log := log + [XGBoosterPredict(handle, dmat, optionMask, ntreeLimit)];
      status := *;
      length := *;
      if status == 0 && handle in state.boosters && dmat in state.matrices {
        var predictions: seq<Float> := *;
        output, length := predictions, |predictions|;
      } else {
        if status == 0 { status := -1; }
        Fail();
      }
    }

    method XGBoosterSaveModelCall(handle: Handle, fname: string) returns (status: int)
      modifies this
      ensures log == old(log) + [XGBoosterSaveModel(handle, fname)]
      ensures state == old(state) && output == old(output) && evalText == old(evalText)
      ensures status == 0 ==> lastError == old(lastError) && handle in state.boosters
    {
      log := log + [XGBoosterSaveModel(handle, fname)];
      status := *;
      if status == 0 && handle in state.boosters {
      } else {
        if status == 0 { status := -1; }
        Fail();
      }
    }

    method XGBoosterLoadModelCall(handle: Handle, fname: string) returns (status: int)
      requires Valid()
      modifies this
      ensures Valid()
      ensures log == old(log) + [XGBoosterLoadModel(handle, fname)]
      ensures output == old(output) && evalText == old(evalText)
      ensures status != 0 ==> state == old(state)
      ensures status == 0 ==> (lastError == old(lastError) && handle in old(state.boosters) &&
        var b := old(state.boosters)[handle];
        state == old(state).(boosters := old(state.boosters)[handle := b.(events := b.events + [Loaded(fname)])]))
    {
      log := log + [XGBoosterLoadModel(handle, fname)];
      status := *;
      if status == 0 && handle in state.boosters {
        Record(handle, Loaded(fname));
      } else {
        if status == 0 { status := -1; }
        Fail();
      }
    }
  }
}
