/**
 * The older matrix wrapper of XGBoost/DMatrix.cs. It differs from the one in
 * Src/XGBoost: `SetLabels` writes without comparing against the row count,
 * the row and column queries ignore the status code (so they never raise),
 * and the handle is exposed through `GetHandle`.
 */
module LegacyMatrixWrapper {
  import opened NativeApi
  import opened ErrorChannel

  class DMatrix {
    const lib: Library
    var handle: Handle

    /** Adopts a handle the library has just returned. */
    constructor (lib: Library, handle: Handle)
      ensures this.lib == lib && this.handle == handle
    {
      this.lib := lib;
      this.handle := handle;
    }

    /** Loads a matrix from a LibSVM file, quietly (silent = 1). */
    static method FromFile(lib: Library, filePath: Option<string>) returns (r: Result<DMatrix>)
      requires lib.Valid()
      modifies lib
      ensures lib.Valid()
      ensures filePath.None? ==>
        r == Err(ArgumentNullException("filePath")) && lib.log == old(lib.log) && lib.state == old(lib.state)
      ensures filePath.Some? ==>
        lib.log == old(lib.log) + [XGDMatrixCreateFromFile(filePath.value, 1)] + ErrorQuery(r.Err?)
      ensures r.Ok? ==> fresh(r.value) && r.value.lib == lib && r.value.handle == old(lib.state.next)
      ensures r.Ok? ==> r.value.handle in lib.state.matrices && lib.state.boosters == old(lib.state.boosters)
      ensures r.Ok? ==> lib.state.matrices == old(lib.state.matrices)[r.value.handle := lib.state.matrices[r.value.handle]]
      ensures r.Err? && filePath.Some? ==> r.error == XGBoostException(lib.lastError) && lib.state == old(lib.state)
    {
      if filePath.None? {
        return Err(ArgumentNullException("filePath"));
      }
      var exitCode, h := lib.XGDMatrixCreateFromFileCall(filePath.value, 1);
      var o := CheckError(lib, exitCode);
      if o.Fail? {
        return Err(o.error);
      }
      var m := new DMatrix(lib, h);
      return Ok(m);
    }

    /** A dense row-major matrix with 0 as the missing value. */
    static method FromDense(lib: Library, data: seq<Float>, nrow: int, ncol: int) returns (r: Result<DMatrix>)
      requires lib.Valid()
      modifies lib
      ensures lib.Valid()
      ensures lib.log == old(lib.log) + [XGDMatrixCreateFromMat(data, ToUInt64(nrow), ToUInt64(ncol), 0.0)] + ErrorQuery(r.Err?)
      ensures r.Ok? ==> fresh(r.value) && r.value.lib == lib && r.value.handle == old(lib.state.next)
      ensures r.Ok? ==> lib.state == old(lib.state).(matrices := old(lib.state.matrices)[r.value.handle := Matrix(ToUInt64(nrow), ToUInt64(ncol), map[])],
                                                     next := r.value.handle + 1)
      ensures r.Err? ==> r.error == XGBoostException(lib.lastError) && lib.state == old(lib.state)
    {
      r := FromDenseWithMissing(lib, data, nrow, ncol, 0.0);
    }

    /** A dense row-major matrix with a caller-chosen missing value; no check
        of `|data|` against `nrow * ncol`. */
    static method FromDenseWithMissing(lib: Library, data: seq<Float>, nrow: int, ncol: int, missing: Float)
      returns (r: Result<DMatrix>)
      requires lib.Valid()
      modifies lib
      ensures lib.Valid()
      ensures lib.log == old(lib.log) + [XGDMatrixCreateFromMat(data, ToUInt64(nrow), ToUInt64(ncol), missing)] + ErrorQuery(r.Err?)
      ensures r.Ok? ==> fresh(r.value) && r.value.lib == lib && r.value.handle == old(lib.state.next)
      ensures r.Ok? ==> lib.state == old(lib.state).(matrices := old(lib.state.matrices)[r.value.handle := Matrix(ToUInt64(nrow), ToUInt64(ncol), map[])],
                                                     next := r.value.handle + 1)
      ensures r.Err? ==> r.error == XGBoostException(lib.lastError) && lib.state == old(lib.state)
    {
      var exitCode, h := lib.XGDMatrixCreateFromMatCall(data, ToUInt64(nrow), ToUInt64(ncol), missing);
      var o := CheckError(lib, exitCode);
      if o.Fail? {
        return Err(o.error);
      }
      var m := new DMatrix(lib, h);
      return Ok(m);
    }

    /** Writes the labels with the array's own length; no row-count check. */
    method SetLabels(labels: seq<Float>) returns (o: Outcome)
      requires lib.Valid()
      modifies lib
      ensures lib.Valid()
      ensures lib.log == old(lib.log) + [XGDMatrixSetFloatInfo(handle, "label", labels, |labels|)] + ErrorQuery(o.Fail?)
      ensures o.Pass? ==> (handle in old(lib.state.matrices) &&
        var m := old(lib.state.matrices)[handle];
        lib.state == old(lib.state).(matrices := old(lib.state.matrices)[handle := m.(info := m.info["label" := labels])]))
      ensures o.Fail? ==> o.error == XGBoostException(lib.lastError) && lib.state == old(lib.state)
    {
      var exitCode := lib.XGDMatrixSetFloatInfoCall(handle, "label", labels, |labels|);
      assert labels[..|labels|] == labels;
      o := CheckError(lib, exitCode);
    }

    /** Copies the stored vector into a new array of the reported length. */
    method GetFloatInfo(field: string) returns (r: Result<array<Float>>)
      modifies lib
      ensures lib.state == old(lib.state)
      ensures lib.log == old(lib.log) + [XGDMatrixGetFloatInfo(handle, field)] + ErrorQuery(r.Err?)
      ensures r.Ok? <==> handle in lib.state.matrices
      ensures r.Ok? ==> fresh(r.value) && r.value[..] == FloatInfo(lib.state.matrices[handle], field)
      ensures r.Err? ==> r.error == XGBoostException(lib.lastError)
    {
      var exitCode, length := lib.XGDMatrixGetFloatInfoCall(handle, field);
      var o := CheckError(lib, exitCode);
      if o.Fail? {
        return Err(o.error);
      }
      var floatInfo := new Float[length];
      MarshalCopy(lib.output, floatInfo, length);
      return Ok(floatInfo);
    }

    method GetLabels() returns (r: Result<array<Float>>)
      modifies lib
      ensures lib.state == old(lib.state)
      ensures lib.log == old(lib.log) + [XGDMatrixGetFloatInfo(handle, "label")] + ErrorQuery(r.Err?)
      ensures r.Ok? <==> handle in lib.state.matrices
      ensures r.Ok? ==> fresh(r.value) && r.value[..] == FloatInfo(lib.state.matrices[handle], "label")
      ensures r.Err? ==> r.error == XGBoostException(lib.lastError)
    {
      r := GetFloatInfo("label");
    }

    /** A new, separately owned matrix holding the rows `rowIndex` names. */
    method Slice(rowIndex: seq<int>) returns (r: Result<DMatrix>)
      requires lib.Valid()
      modifies lib
      ensures lib.Valid()
      ensures lib.log == old(lib.log) + [XGDMatrixSliceDMatrix(handle, rowIndex, |rowIndex|)] + ErrorQuery(r.Err?)
      ensures r.Ok? ==> fresh(r.value) && r.value.lib == lib
      ensures r.Ok? ==> r.value.handle == old(lib.state.next) && r.value.handle != handle
      ensures r.Ok? ==> r.value.handle in lib.state.matrices && lib.state.matrices[r.value.handle].rows == |rowIndex|
      ensures r.Ok? ==> handle in old(lib.state.matrices) && r.value.handle !in old(lib.state.matrices)
      ensures r.Ok? ==> lib.state.matrices == old(lib.state.matrices)[r.value.handle := lib.state.matrices[r.value.handle]]
      ensures r.Ok? ==> lib.state.boosters == old(lib.state.boosters)
      ensures r.Err? ==> r.error == XGBoostException(lib.lastError) && lib.state == old(lib.state)
    {
      var exitCode, slicedPtr := lib.XGDMatrixSliceDMatrixCall(handle, rowIndex, |rowIndex|);
      var o := CheckError(lib, exitCode);
      if o.Fail? {
        return Err(o.error);
      }
      var m := new DMatrix(lib, slicedPtr);
      return Ok(m);
    }

    /** The row count; the status code is ignored, so a dead handle yields
        whatever the library left in the out-parameter, never an error, and
        no last-error query is made. */
    method GetRowNumber() returns (n: int)
      modifies lib
      ensures lib.state == old(lib.state)
      ensures lib.log == old(lib.log) + [XGDMatrixNumRow(handle)]
      ensures handle in lib.state.matrices ==> n == ToInt32(lib.state.matrices[handle].rows)
    {
      var exitCode, nrow := lib.XGDMatrixNumRowCall(handle);
      return ToInt32(nrow);
    }

    /** The column count; the status code is ignored, as for the rows. */
    method GetColNumber() returns (n: int)
      modifies lib
      ensures lib.state == old(lib.state)
      ensures lib.log == old(lib.log) + [XGDMatrixNumCol(handle)]
      ensures handle in lib.state.matrices ==> n == ToInt32(lib.state.matrices[handle].cols)
    {
      var exitCode, ncol := lib.XGDMatrixNumColCall(handle);
      return ToInt32(ncol);
    }

    /** The native handle this wrapper owns, as the booster and training
        code pass it back into the library. */
    function GetHandle(): (h: Handle)
      reads this
      ensures h == handle
    {
      handle
    }

    /** Frees the handle if one is held and forgets it; never fails, and a
        second call makes no native call. */
    method Dispose()
      requires lib.Valid()
      modifies this, lib
      ensures lib.Valid()
      ensures GetHandle() == 0
      ensures old(handle) != 0 ==> (lib.log == old(lib.log) + [XGDMatrixFree(old(handle))] &&
        lib.state == old(lib.state).(matrices := old(lib.state.matrices) - {old(handle)}))
      ensures old(handle) == 0 ==> lib.log == old(lib.log) && lib.state == old(lib.state)
    {
      if handle != 0 {
        var _ := lib.XGDMatrixFreeCall(handle);
        handle := 0;
      }
    }
  }

  /** Dispose twice: one free call in all, and the handle reads zero after. */
  method DisposeTwice(matrix: DMatrix)
    requires matrix.lib.Valid()
    modifies matrix, matrix.lib
    ensures matrix.GetHandle() == 0
    ensures old(matrix.handle) != 0 ==> matrix.lib.log == old(matrix.lib.log) + [XGDMatrixFree(old(matrix.handle))]
    ensures old(matrix.handle) == 0 ==> matrix.lib.log == old(matrix.lib.log)
  {
    matrix.Dispose();
    matrix.Dispose();
  }
}
