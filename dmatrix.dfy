/**
 * The matrix wrapper of Src/XGBoost/DMatrix.cs: owns one native matrix
 * handle, forwards construction, shape queries, float fields and slicing to
 * the native library, and releases the handle at most once.
 *
 * A C# constructor that can throw becomes a static method returning a
 * `Result<DMatrix>`; the protected constructor that adopts a handle is the
 * Dafny constructor.
 */
module MatrixWrapper {
  import opened NativeApi
  import opened ErrorChannel

  const LabelsLengthMessage: string := "The length of labels must equal to the number of rows"
  const WeightsLengthMessage: string := "The length of weights must equal to the number of rows"

  /** The handles of `ms`, in order (what `Select(m => m.GetHandle())` builds). */
  function Handles(ms: seq<DMatrix>): (hs: seq<Handle>)
    reads set i | 0 <= i < |ms| :: ms[i]
    ensures |hs| == |ms|
    ensures forall i :: 0 <= i < |ms| ==> hs[i] == ms[i].handle
  {
    if ms == [] then [] else [ms[0].handle] + Handles(ms[1..])
  }

  class DMatrix {
    const lib: Library
    var handle: Handle

    /** Adopts a handle the library has just returned. */
    constructor (lib: Library, handle: Handle)
      ensures this.lib == lib && this.handle == handle
    {
      this.lib := lib;
      this.handle := handle;
    }

    /** The native handle this wrapper owns, as the `Handle` property hands
        it to the booster and training code. */
    function GetHandle(): (h: Handle)
      reads this
      ensures h == handle
    {
      handle
    }

    /** Loads a matrix from a LibSVM file, quietly (silent = 1). */
    static method FromFile(lib: Library, filePath: Option<string>) returns (r: Result<DMatrix>)
      requires lib.Valid()
      modifies lib
      ensures lib.Valid()
      ensures filePath.None? ==>
        r == Err(ArgumentNullException("filePath")) && lib.log == old(lib.log) && lib.state == old(lib.state)
      ensures filePath.Some? ==>
        lib.log == old(lib.log) + [XGDMatrixCreateFromFile(filePath.value, 1)] + ErrorQuery(r.Err?)
      ensures r.Ok? ==> fresh(r.value) && r.value.lib == lib && r.value.handle == old(lib.state.next)
      ensures r.Ok? ==> r.value.handle in lib.state.matrices && lib.state.boosters == old(lib.state.boosters)
      ensures r.Ok? ==> lib.state.matrices == old(lib.state.matrices)[r.value.handle := lib.state.matrices[r.value.handle]]
      ensures r.Err? && filePath.Some? ==> r.error == XGBoostException(lib.lastError) && lib.state == old(lib.state)
    {
      if filePath.None? {
        return Err(ArgumentNullException("filePath"));
      }
      var exitCode, h := lib.XGDMatrixCreateFromFileCall(filePath.value, 1);
      var o := CheckError(lib, exitCode);
      if o.Fail? {
        return Err(o.error);
      }
      var m := new DMatrix(lib, h);
      return Ok(m);
    }

    /** A dense row-major matrix with 0 as the missing value. */
    static method FromDense(lib: Library, data: seq<Float>, nrow: int, ncol: int) returns (r: Result<DMatrix>)
      requires lib.Valid()
      modifies lib
      ensures lib.Valid()
      ensures lib.log == old(lib.log) + [XGDMatrixCreateFromMat(data, ToUInt64(nrow), ToUInt64(ncol), 0.0)] + ErrorQuery(r.Err?)
      ensures r.Ok? ==> fresh(r.value) && r.value.lib == lib && r.value.handle == old(lib.state.next)
      ensures r.Ok? ==> lib.state == old(lib.state).(
        matrices := old(lib.state.matrices)[r.value.handle := Matrix(ToUInt64(nrow), ToUInt64(ncol), map[])],
        next := r.value.handle + 1)
      ensures r.Err? ==> r.error == XGBoostException(lib.lastError) && lib.state == old(lib.state)
    {
      r := FromDenseWithMissing(lib, data, nrow, ncol, 0.0);
    }

    /** A dense row-major matrix with a caller-chosen missing value. Neither
        dense form checks `|data| == nrow * ncol`. */
    static method FromDenseWithMissing(lib: Library, data: seq<Float>, nrow: int, ncol: int, missing: Float)
      returns (r: Result<DMatrix>)
      requires lib.Valid()
      modifies lib
      ensures lib.Valid()
      ensures lib.log == old(lib.log) + [XGDMatrixCreateFromMat(data, ToUInt64(nrow), ToUInt64(ncol), missing)] + ErrorQuery(r.Err?)
      ensures r.Ok? ==> fresh(r.value) && r.value.lib == lib && r.value.handle == old(lib.state.next)
      ensures r.Ok? ==> lib.state == old(lib.state).(
        matrices := old(lib.state.matrices)[r.value.handle := Matrix(ToUInt64(nrow), ToUInt64(ncol), map[])],
        next := r.value.handle + 1)
      ensures r.Err? ==> r.error == XGBoostException(lib.lastError) && lib.state == old(lib.state)
    {
      var exitCode, h := lib.XGDMatrixCreateFromMatCall(data, ToUInt64(nrow), ToUInt64(ncol), missing);
      var o := CheckError(lib, exitCode);
      if o.Fail? {
        return Err(o.error);
      }
      var m := new DMatrix(lib, h);
      return Ok(m);
    }

    /** The row count, asked of the library afresh on every call. */
    method RowsCount() returns (r: Result<int>)
      modifies lib
      ensures lib.state == old(lib.state) && lib.output == old(lib.output)
      ensures lib.log == old(lib.log) + [XGDMatrixNumRow(handle)] + ErrorQuery(r.Err?)
      ensures r.Ok? <==> handle in lib.state.matrices
      ensures r.Ok? ==> r.value == ToInt32(lib.state.matrices[handle].rows)
      ensures r.Err? ==> r.error == XGBoostException(lib.lastError)
    {
      var exitCode, nrow := lib.XGDMatrixNumRowCall(handle);
      var o := CheckError(lib, exitCode);
      if o.Fail? {
        return Err(o.error);
      }
      return Ok(ToInt32(nrow));
    }

    /** The column count, asked of the library afresh on every call. */
    method ColumnsCount() returns (r: Result<int>)
      modifies lib
      ensures lib.state == old(lib.state) && lib.output == old(lib.output)
      ensures lib.log == old(lib.log) + [XGDMatrixNumCol(handle)] + ErrorQuery(r.Err?)
      ensures r.Ok? <==> handle in lib.state.matrices
      ensures r.Ok? ==> r.value == ToInt32(lib.state.matrices[handle].cols)
      ensures r.Err? ==> r.error == XGBoostException(lib.lastError)
    {
      var exitCode, ncol := lib.XGDMatrixNumColCall(handle);
      var o := CheckError(lib, exitCode);
      if o.Fail? {
        return Err(o.error);
      }
      return Ok(ToInt32(ncol));
    }

    /** The `Labels` getter. */
    method GetLabels() returns (r: Result<array<Float>>)
      modifies lib
      ensures lib.state == old(lib.state)
      ensures lib.log == old(lib.log) + [XGDMatrixGetFloatInfo(handle, "label")] + ErrorQuery(r.Err?)
      ensures r.Ok? <==> handle in lib.state.matrices
      ensures r.Ok? ==> fresh(r.value) && r.value[..] == FloatInfo(lib.state.matrices[handle], "label")
      ensures r.Err? ==> r.error == XGBoostException(lib.lastError)
    {
      r := GetFloatInfo("label");
    }

    /** The `Labels` setter: the length is checked against the row count first. */
    method SetLabels(value: seq<Float>) returns (o: Outcome)
      requires lib.Valid()
      modifies lib
      ensures lib.Valid()
      ensures GuardedSetDone(lib, old(lib.state), old(lib.log), handle, "label", LabelsLengthMessage, value, o)
    {
      o := GuardedSet("label", LabelsLengthMessage, value);
    }

    /** The `Weights` getter. */
    method GetWeights() returns (r: Result<array<Float>>)
      modifies lib
      ensures lib.state == old(lib.state)
      ensures lib.log == old(lib.log) + [XGDMatrixGetFloatInfo(handle, "weight")] + ErrorQuery(r.Err?)
      ensures r.Ok? <==> handle in lib.state.matrices
      ensures r.Ok? ==> fresh(r.value) && r.value[..] == FloatInfo(lib.state.matrices[handle], "weight")
      ensures r.Err? ==> r.error == XGBoostException(lib.lastError)
    {
      r := GetFloatInfo("weight");
    }

    /** The `Weights` setter: the length is checked against the row count first. */
    method SetWeights(value: seq<Float>) returns (o: Outcome)
      requires lib.Valid()
      modifies lib
      ensures lib.Valid()
      ensures GuardedSetDone(lib, old(lib.state), old(lib.log), handle, "weight", WeightsLengthMessage, value, o)
    {
      o := GuardedSet("weight", WeightsLengthMessage, value);
    }

    /** The body shared by both setters. */
    method GuardedSet(field: string, message: string, value: seq<Float>) returns (o: Outcome)
      requires lib.Valid()
      modifies lib
      ensures lib.Valid()
      ensures GuardedSetDone(lib, old(lib.state), old(lib.log), handle, field, message, value, o)
    {
      var rows := RowsCount();
      if rows.Err? {
        return Fail(rows.error);
      }
      if |value| != rows.value {
        return Fail(XGBoostException(message));
      }
      o := SetFloatInfo(field, value);
    }

    method SetFloatInfo(field: string, values: seq<Float>) returns (o: Outcome)
      requires lib.Valid()
      modifies lib
      ensures lib.Valid()
      ensures lib.log == old(lib.log) + [XGDMatrixSetFloatInfo(handle, field, values, |values|)] + ErrorQuery(o.Fail?)
      ensures o.Pass? ==> (handle in old(lib.state.matrices) &&
        lib.state == old(lib.state).(matrices := old(lib.state.matrices)[handle := WithField(old(lib.state.matrices)[handle], field, values)]))
      ensures o.Fail? ==> o.error == XGBoostException(lib.lastError) && lib.state == old(lib.state)
    {
      var exitCode := lib.XGDMatrixSetFloatInfoCall(handle, field, values, |values|);
      assert values[..|values|] == values;
      o := CheckError(lib, exitCode);
    }

    /** Copies the stored vector into a new array of the reported length. */
    method GetFloatInfo(field: string) returns (r: Result<array<Float>>)
      modifies lib
      ensures lib.state == old(lib.state)
      ensures lib.log == old(lib.log) + [XGDMatrixGetFloatInfo(handle, field)] + ErrorQuery(r.Err?)
      ensures r.Ok? <==> handle in lib.state.matrices
      ensures r.Ok? ==> fresh(r.value) && r.value[..] == FloatInfo(lib.state.matrices[handle], field)
      ensures r.Err? ==> r.error == XGBoostException(lib.lastError)
    {
      var exitCode, length := lib.XGDMatrixGetFloatInfoCall(handle, field);
      var o := CheckError(lib, exitCode);
      if o.Fail? {
        return Err(o.error);
      }
      var floatInfo := new Float[length];
      MarshalCopy(lib.output, floatInfo, length);
      return Ok(floatInfo);
    }

    /** A new, separately owned matrix holding the rows `rowIndex` names. */
    method Slice(rowIndex: seq<int>) returns (r: Result<DMatrix>)
      requires lib.Valid()
      modifies lib
      ensures lib.Valid()
      ensures lib.log == old(lib.log) + [XGDMatrixSliceDMatrix(handle, rowIndex, |rowIndex|)] + ErrorQuery(r.Err?)
      ensures r.Ok? ==> fresh(r.value) && r.value.lib == lib
      ensures r.Ok? ==> r.value.handle == old(lib.state.next) && r.value.handle != handle
      ensures r.Ok? ==> handle in old(lib.state.matrices) && r.value.handle !in old(lib.state.matrices)
      ensures r.Ok? ==> r.value.handle in lib.state.matrices && lib.state.matrices[r.value.handle].rows == |rowIndex|
      ensures r.Ok? ==> lib.state.matrices == old(lib.state.matrices)[r.value.handle := lib.state.matrices[r.value.handle]]
      ensures r.Ok? ==> lib.state.boosters == old(lib.state.boosters)
      ensures r.Err? ==> r.error == XGBoostException(lib.lastError) && lib.state == old(lib.state)
    {
      var exitCode, slicedPtr := lib.XGDMatrixSliceDMatrixCall(handle, rowIndex, |rowIndex|);
      var o := CheckError(lib, exitCode);
      if o.Fail? {
        return Err(o.error);
      }
      var m := new DMatrix(lib, slicedPtr);
      return Ok(m);
    }

    /** Frees the handle if one is held and forgets it; the status of the free
        is not checked, so this never fails. */
    method Dispose()
      requires lib.Valid()
      modifies this, lib
      ensures lib.Valid()
      ensures handle == 0
      ensures old(handle) != 0 ==> (lib.log == old(lib.log) + [XGDMatrixFree(old(handle))] &&
        lib.state == old(lib.state).(matrices := old(lib.state.matrices) - {old(handle)}))
      ensures old(handle) == 0 ==> lib.log == old(lib.log) && lib.state == old(lib.state)
    {
      if handle != 0 {
        var _ := lib.XGDMatrixFreeCall(handle);
        handle := 0;
      }
    }
  }

  /** The matrix with `field` set to `values`. */
  function WithField(m: Matrix, field: string, values: seq<Float>): (m': Matrix)
    ensures m'.rows == m.rows && m'.cols == m.cols
    ensures FloatInfo(m', field) == values
    ensures forall f :: f != field ==> FloatInfo(m', f) == FloatInfo(m, f)
  {
    m.(info := m.info[field := values])
  }

  /** What a guarded setter has done: the row count is asked first; a failed
      query or a length mismatch stops before any write and leaves every
      stored field as it was; otherwise the field is written with the
      vector's own length. */
  ghost predicate GuardedSetDone(lib: Library, state0: State, log0: seq<Call>, handle: Handle,
                                 field: string, message: string, value: seq<Float>, o: Outcome)
    reads lib
  {
    var query := log0 + [XGDMatrixNumRow(handle)];
    if handle !in state0.matrices then
      && o == Fail(XGBoostException(lib.lastError))
      && lib.log == query + [XGBGetLastError]
      && lib.state == state0
    else if |value| != ToInt32(state0.matrices[handle].rows) then
      && o == Fail(XGBoostException(message))
      && lib.log == query
      && lib.state == state0
    else
      && lib.log == query + [XGDMatrixSetFloatInfo(handle, field, value, |value|)] + ErrorQuery(o.Fail?)
      && (o.Pass? ==> lib.state == state0.(matrices := state0.matrices[handle := WithField(state0.matrices[handle], field, value)]))
      && (o.Fail? ==> o.error == XGBoostException(lib.lastError) && lib.state == state0)
  }

  /** The shape round trip the test suite checks: a dense matrix built as
      `nrow` x `ncol` reports exactly those counts; once construction has
      succeeded neither query can fail. */
  method CreateFromDenseMatrix(lib: Library, data: seq<Float>, nrow: int, ncol: int) returns (r: Result<(int, int)>)
    requires lib.Valid()
    requires 0 <= nrow <= Int32Max && 0 <= ncol <= Int32Max
    modifies lib
    ensures lib.Valid()
    ensures r.Ok? ==> r.value == (nrow, ncol)
    ensures r.Err? ==> lib.log == old(lib.log) + [XGDMatrixCreateFromMat(data, nrow, ncol, 0.0), XGBGetLastError]
  {
    var created := DMatrix.FromDense(lib, data, nrow, ncol);
    if created.Err? {
      return Err(created.error);
    }
    var matrix := created.value;
    var rows := matrix.RowsCount();
    var cols := matrix.ColumnsCount();
    CountRoundTrip(nrow);
    CountRoundTrip(ncol);
    return Ok((rows.value, cols.value));
  }

  /** Labels written through the guarded setter read back unchanged. */
  method SetThenGetLabels(matrix: DMatrix, value: seq<Float>) returns (o: Outcome, r: Result<array<Float>>)
    requires matrix.lib.Valid()
    modifies matrix.lib
    ensures matrix.lib.Valid()
    ensures o.Pass? ==> r.Ok? && r.value[..] == value
  {
    o := matrix.SetLabels(value);
    r := matrix.GetLabels();
  }

  /** A slice is its own matrix: disposing the source leaves the slice live,
      with one row per requested index. */
  method SliceOutlivesSource(matrix: DMatrix, rowIndex: seq<int>) returns (r: Result<int>)
    requires matrix.lib.Valid()
    requires |rowIndex| <= Int32Max
    modifies matrix, matrix.lib
    ensures matrix.lib.Valid() && matrix.handle == 0
    ensures r.Err? ==> r.error.XGBoostException?
    ensures r.Err? ==>
      old(matrix.lib.log) + [XGDMatrixSliceDMatrix(old(matrix.handle), rowIndex, |rowIndex|), XGBGetLastError] <= matrix.lib.log
    ensures r.Ok? ==> r.value == |rowIndex|
  {
    var lib := matrix.lib;
    var sliced := matrix.Slice(rowIndex);
    matrix.Dispose();
    if sliced.Err? {
      return Err(sliced.error);
    }
    r := sliced.value.RowsCount();
    CountRoundTrip(|rowIndex|);
  }
}
