/** The in-memory camera and ADwin board used when no hardware is present
    (hardware/mock_devices.py). */
module MockDevices {

  /** A call that either returns a value or raises numpy's `ValueError`. */
  datatype Outcome<T> = Ok(value: T) | ValueError

  /** What `MockCamera.get_info` reports. */
  datatype CameraInfo = CameraInfo(model: string, index: int, status: string)

  /** Python's `s[:n]`: a negative `n` counts from the end, and both ends are cut to the sequence. */
  function SlicePrefix<T>(s: seq<T>, n: int): (r: seq<T>)
    ensures r <= s
    ensures n >= 0 ==> |r| == if n <= |s| then n else |s|
    ensures n < 0 ==> |r| == if |s| + n >= 0 then |s| + n else 0
  {
    if n >= 0 then (if n <= |s| then s[..n] else s)
    else if |s| + n >= 0 then s[..|s| + n]
    else []
  }

  /** `np.zeros(n)`, which raises for a negative length. */
  function Zeros(n: int): (r: Outcome<seq<real>>)
    ensures n < 0 <==> r.ValueError?
    ensures r.Ok? ==> |r.value| == n && forall i :: 0 <= i < |r.value| ==> r.value[i] == 0.0
  {
    if n < 0 then ValueError else Ok(seq(n, _ => 0.0))
  }

  class MockCamera {
    var connected: bool
    var acquiring: bool
    var exposure: real
    var gain: int
    var temperature: real
    var frameCount: nat

    constructor ()
      ensures !connected && !acquiring
      ensures exposure == 100.0 && gain == 1 && temperature == -70.0 && frameCount == 0
      ensures GetTemperature() == -65.0
    {
      connected := false;
      acquiring := false;
      exposure := 100.0;
      gain := 1;
      temperature := -70.0;
      frameCount := 0;
    }

    /** Always succeeds. */
    method Connect() returns (ok: bool)
      modifies this`connected
      ensures ok && connected
    {
      connected := true;
      ok := true;
    }

    method Disconnect()
      modifies this`connected, this`acquiring
      ensures !connected && !acquiring
    {
      connected := false;
      acquiring := false;
    }

    /** Refused, with nothing changed, unless connected. */
    method StartAcquisition() returns (ok: bool)
      modifies this`acquiring
      ensures ok == connected
      ensures acquiring == (old(acquiring) || connected)
    {
      if !connected {
        return false;
      }
      acquiring := true;
      ok := true;
    }

    method StopAcquisition()
      modifies this`acquiring
      ensures !acquiring
    {
      acquiring := false;
    }

    /** Counts one more frame, connected and acquiring or not, and returns its number. The
        synthetic image itself is not modelled. */
    method AcquireImage() returns (frame: nat)
      modifies this`frameCount
      ensures frameCount == old(frameCount) + 1 && frame == frameCount
    {
      frameCount := frameCount + 1;
      frame := frameCount;
    }

    method SetExposure(exposureMs: real)
      modifies this`exposure
      ensures exposure == exposureMs
    {
      exposure := exposureMs;
    }

    method SetGain(g: int)
      modifies this`gain
      ensures gain == g
    {
      gain := g;
    }

    /** The reported temperature follows the setpoint at a fixed 5 degrees above it. */
    method SetTemperature(tempCelsius: int)
      modifies this`temperature
      ensures temperature == tempCelsius as real
      ensures GetTemperature() == tempCelsius as real + 5.0
    {
      temperature := tempCelsius as real;
    }

    /** The reported temperature: always 5 degrees above the stored setpoint. */
    function GetTemperature(): (t: real)
      reads this
      ensures t - temperature == 5.0
    {
      temperature + 5.0
    }

    /** The status reads "connected" exactly when the camera is connected. */
    function GetInfo(): (info: CameraInfo)
      reads this
      ensures info.model == "Mock Camera" && info.index == 0
      ensures info.status == "connected" <==> connected
      ensures info.status == "disconnected" <==> !connected
    {
      CameraInfo("Mock Camera", 0, if connected then "connected" else "disconnected")
    }
  }

  class MockAdWin {
    var connected: bool
    var parameters: map<int, real>
    var arrays: map<int, seq<real>>

    constructor ()
      ensures !connected && parameters == map[] && arrays == map[]
    {
      connected := false;
      parameters := map[];
      arrays := map[];
    }

    method Connect() returns (ok: bool)
      modifies this`connected
      ensures ok && connected
    {
      connected := true;
      ok := true;
    }

    method Disconnect()
      modifies this`connected
      ensures !connected
    {
      connected := false;
    }

    /** Writes one parameter: it reads back as written, and no other parameter changes. */
    method SetParameter(paramNo: int, value: real)
      modifies this`parameters
      ensures parameters == old(parameters)[paramNo := value]
      ensures GetParameter(paramNo) == value
      ensures forall n :: n != paramNo ==> GetParameter(n) == old(GetParameter(n))
    {
      parameters := parameters[paramNo := value];
    }

    /** A parameter never written reads as 0.0. */
    function GetParameter(paramNo: int): (v: real)
      reads this
      ensures paramNo in parameters ==> v == parameters[paramNo]
      ensures paramNo !in parameters ==> v == 0.0
    {
      if paramNo in parameters then parameters[paramNo] else 0.0
    }

    /** `Set_FPar`: the ADwin-style name of `set_parameter`. */
    method SetFPar(paramNo: int, value: real)
      modifies this`parameters
      ensures parameters == old(parameters)[paramNo := value]
      ensures GetFPar(paramNo) == value
    {
      SetParameter(paramNo, value);
    }

    /** `Get_FPar`: the ADwin-style name of `get_parameter`. */
    function GetFPar(paramNo: int): (v: real)
      reads this
      ensures v == GetParameter(paramNo)
      ensures paramNo !in parameters ==> v == 0.0
    {
      GetParameter(paramNo)
    }

    /** Stores a copy of the caller's array: what is stored is a value, not the array. */
    method UploadArray(arrayNo: int, data: array<real>)
      modifies this`arrays
      ensures arrays == old(arrays)[arrayNo := data[..]]
      ensures forall n :: 0 <= n <= data.Length ==> DownloadArray(arrayNo, n) == Ok(data[..n])
    {
      arrays := arrays[arrayNo := data[..]];
    }

    /** The stored array cut to `length`, or `length` zeros when nothing is stored. */
    function DownloadArray(arrayNo: int, length: int): (r: Outcome<seq<real>>)
      reads this
      ensures arrayNo in arrays ==> r == Ok(SlicePrefix(arrays[arrayNo], length))
      ensures arrayNo in arrays && length >= 0 ==>
                |r.value| == (if length <= |arrays[arrayNo]| then length else |arrays[arrayNo]|) &&
                r.value <= arrays[arrayNo]
      ensures arrayNo !in arrays ==> r == Zeros(length)
      ensures arrayNo !in arrays && length >= 0 ==> r.Ok? && |r.value| == length
    {
      if arrayNo in arrays then Ok(SlicePrefix(arrays[arrayNo], length)) else Zeros(length)
    }

    /** `SetData_Float`: ignores `start` and `count` and stores the whole array. */
    method SetDataFloat(arrayNo: int, data: array<real>, start: int, count: int)
      modifies this`arrays
      ensures arrays == old(arrays)[arrayNo := data[..]]
      ensures DownloadArray(arrayNo, data.Length) == Ok(data[..])
    {
      UploadArray(arrayNo, data);
      assert data[..data.Length] == data[..];
    }

    /** `SetData_Long`: like `SetDataFloat`, for an integer array. */
    method SetDataLong(arrayNo: int, data: array<int>, start: int, count: int)
      modifies this`arrays
      ensures arrayNo in arrays && |arrays[arrayNo]| == data.Length
      ensures forall i :: 0 <= i < data.Length ==> arrays[arrayNo][i] == data[i] as real
      ensures forall n :: n != arrayNo && n in old(arrays) ==> n in arrays && arrays[n] == old(arrays)[n]
      ensures forall n :: n != arrayNo && n in arrays ==> n in old(arrays)
    {
      arrays := arrays[arrayNo := seq(data.Length, i reads data requires 0 <= i < data.Length => data[i] as real)];
    }

    /** `GetData_Float`: `data[:] = stored[:count]`, in place. Nothing happens when nothing is
        stored. Otherwise numpy's assignment needs the prefix to be as long as the buffer, or a
        single value, which then fills the buffer; any other length raises `ValueError` before a
        single element is written. */
    method GetDataFloat(arrayNo: int, data: array<real>, start: int, count: int)
      returns (r: Outcome<()>)
      modifies data
      ensures arrayNo !in arrays ==> r.Ok? && data[..] == old(data[..])
      ensures arrayNo in arrays ==>
                var p := SlicePrefix(arrays[arrayNo], count);
                if |p| == data.Length then r.Ok? && data[..] == p
                else if |p| == 1 then r.Ok? && forall i :: 0 <= i < data.Length ==> data[i] == p[0]
                else r.ValueError? && data[..] == old(data[..])
    {
      if arrayNo !in arrays {
        return Ok(());
      }
      var p := SlicePrefix(arrays[arrayNo], count);
      if |p| != data.Length && |p| != 1 {
        return ValueError;
      }
      var i := 0;
      while i < data.Length
        invariant 0 <= i <= data.Length
        invariant forall k :: 0 <= k < i ==> data[k] == (if |p| == data.Length then p[k] else p[0])
        invariant forall k :: i <= k < data.Length ==> data[k] == old(data[k])
      {
        data[i] := if |p| == data.Length then p[i] else p[0];
        i := i + 1;
      }
      r := Ok(());
    }
  }
}
