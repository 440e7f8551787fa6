/** The `Config` class of prysm/conf.py: validated precision and Zernike
    base, the backend with its change observers, and the two display settings
    that labels consult. Plotting style defaults and the per-domain default
    units are plain assignments and are not modelled. */
module Configuration {
  import opened Wrappers

  /** The numeric data types the precision selects. */
  datatype DType = Float32 | Float64 | Complex64 | Complex128

  /** An opaque computational backend handle. */
  type Backend(==)

  /** An entry of the backend observer list. */
  type ObserverId = nat

  /** One call `observer(old_backend)` made by the backend setter. */
  datatype Notification = Notification(observer: ObserverId, oldBackend: Backend)

  const PrecisionMessage := "invalid precision.  Precision should be 32 or 64."
  const ZernikeMessage := "By convention zernike base must be 0 or 1."

  class Config {
    /** The backend observer list; other code appends to it directly. */
    var observers: seq<ObserverId>
    var initialized: bool
    /** The private attributes behind the properties; `None` while not yet assigned. */
    var precision: Option<DType>
    var precisionComplex: Option<DType>
    var backend: Option<Backend>
    var zernikeBase: Option<int>
    /** Plain settings read by the label code. */
    var unitFormat: string
    var showUnits: bool

    /** The real and complex data types are set together and match in width,
        and the Zernike base, once set, is 0 or 1. */
    ghost predicate Valid()
      reads this
    {
      ((precision == None && precisionComplex == None) ||
       (precision == Some(Float32) && precisionComplex == Some(Complex64)) ||
       (precision == Some(Float64) && precisionComplex == Some(Complex128))) &&
      (zernikeBase.Some? ==> zernikeBase.value in {0, 1})
    }

    /** A fresh object at the start of its initialiser: the observer list is
        empty, the object is not yet initialised and no property is set. */
    constructor ()
      ensures Valid()
      ensures observers == [] && !initialized
      ensures precision == None && precisionComplex == None
      ensures backend == None && zernikeBase == None
    {
      observers := [];
      initialized := false;
      precision, precisionComplex := None, None;
      backend := None;
      zernikeBase := None;
      unitFormat := "";
      showUnits := false;
    }

    /** `Config(...)`: run the initialiser, assigning the properties in the
        source's order, with the source's default arguments. The first
        rejected argument is raised and no object is returned. Assigning the
        backend notifies no one, as no observer can be registered yet, and
        leaves the backend unset. */
    static method New(precision: int := 64, backend: Backend, zernikeBase: int := 1,
                      unitFormat: string := "latex_inline", showUnits: bool := true)
      returns (r: Result<Config>)
      ensures r.Ok? <==> (precision == 32 || precision == 64) && (zernikeBase == 0 || zernikeBase == 1)
      ensures precision != 32 && precision != 64 ==> r == Err(InvalidArgument(PrecisionMessage))
      ensures (precision == 32 || precision == 64) && zernikeBase != 0 && zernikeBase != 1 ==>
        r == Err(InvalidArgument(ZernikeMessage))
      ensures r.Ok? ==> fresh(r.value) && r.value.Valid() && r.value.initialized
      ensures r.Ok? ==> r.value.observers == [] && r.value.backend == None
      ensures r.Ok? ==> r.value.Precision() == Ok(if precision == 32 then Float32 else Float64)
      ensures r.Ok? ==> r.value.ZernikeBase() == Ok(zernikeBase)
      ensures r.Ok? ==> r.value.unitFormat == unitFormat && r.value.showUnits == showUnits
    {
      var c := new Config();
      var outcome := c.SetPrecision(precision);
      if outcome.Fail? {
        return Err(outcome.error);
      }
      var calls := c.SetBackend(backend);
      assert calls == Ok([]);
      outcome := c.SetZernikeBase(zernikeBase);
      if outcome.Fail? {
        return Err(outcome.error);
      }
      c.unitFormat := unitFormat;
      c.showUnits := showUnits;
      c.initialized := true;
      return Ok(c);
    }

    /** The real data type of computations; fails while unset. */
    function Precision(): (r: Result<DType>)
      reads this
      requires Valid()
      ensures r.Ok? <==> precision.Some?
      ensures r.Ok? ==> r.value == Float32 || r.value == Float64
      ensures r.Err? ==> r.error == UnknownAttribute("_precision")
    {
      match precision
      case Some(d) => Ok(d)
      case None => Err(UnknownAttribute("_precision"))
    }

    /** The complex data type of computations, of the same width as the real one. */
    function PrecisionComplex(): (r: Result<DType>)
      reads this
      requires Valid()
      ensures r.Ok? <==> Precision().Ok?
      ensures r.Ok? ==> r.value == (if Precision().value == Float32 then Complex64 else Complex128)
      ensures r.Err? ==> r.error == UnknownAttribute("_precision_complex")
    {
      match precisionComplex
      case Some(d) => Ok(d)
      case None => Err(UnknownAttribute("_precision_complex"))
    }

    /** The stored backend; fails while unset. */
    function HeldBackend(): (r: Result<Backend>)
      reads this
      ensures r.Ok? <==> backend.Some?
      ensures r.Ok? ==> Some(r.value) == backend
      ensures r.Err? ==> r.error == UnknownAttribute("_backend")
    {
      match backend
      case Some(b) => Ok(b)
      case None => Err(UnknownAttribute("_backend"))
    }

    /** The Zernike base, always 0 or 1 once set; fails while unset. */
    function ZernikeBase(): (r: Result<int>)
      reads this
      requires Valid()
      ensures r.Ok? <==> zernikeBase.Some?
      ensures r.Ok? ==> r.value == 0 || r.value == 1
      ensures r.Err? ==> r.error == UnknownAttribute("_zernike_base")
    {
      match zernikeBase
      case Some(b) => Ok(b)
      case None => Err(UnknownAttribute("_zernike_base"))
    }

    /** The precision setter: 32 and 64 select the 32- and 64-bit real and
        complex types; anything else is rejected and nothing changes. */
    method SetPrecision(bits: int) returns (r: Outcome)
      requires Valid()
      modifies this`precision, this`precisionComplex
      ensures Valid()
      ensures r.Pass? <==> bits == 32 || bits == 64
      ensures r.Fail? ==> r.error == InvalidArgument(PrecisionMessage)
      ensures r.Fail? ==> precision == old(precision) && precisionComplex == old(precisionComplex)
      ensures bits == 32 ==> Precision() == Ok(Float32) && PrecisionComplex() == Ok(Complex64)
      ensures bits == 64 ==> Precision() == Ok(Float64) && PrecisionComplex() == Ok(Complex128)
    {
      if bits != 32 && bits != 64 {
        return Fail(InvalidArgument(PrecisionMessage));
      }
      if bits == 32 {
        precision, precisionComplex := Some(Float32), Some(Complex64);
      } else {
        precision, precisionComplex := Some(Float64), Some(Complex128);
      }
      return Pass;
    }

    /** The Zernike base setter: stores 0 or 1; anything else is rejected and
        nothing changes. */
    method SetZernikeBase(base: int) returns (r: Outcome)
      requires Valid()
      modifies this`zernikeBase
      ensures Valid()
      ensures r.Pass? <==> base == 0 || base == 1
      ensures r.Pass? ==> ZernikeBase() == Ok(base)
      ensures r.Fail? ==> r.error == InvalidArgument(ZernikeMessage) && zernikeBase == old(zernikeBase)
    {
      if base != 0 && base != 1 {
        return Fail(InvalidArgument(ZernikeMessage));
      }
      zernikeBase := Some(base);
      return Pass;
    }

    /** The backend setter: calls every observer once, in list order, with the
        backend held before the call, and stores nothing, so the new backend
        is unused and no field changes. Reading the held backend fails while it
        is unset, which happens before the first observer is called. */
    method SetBackend(newBackend: Backend) returns (r: Result<seq<Notification>>)
      ensures r.Err? <==> observers != [] && backend.None?
      ensures r.Err? ==> r.error == UnknownAttribute("_backend")
      ensures r.Ok? ==> |r.value| == |observers|
      ensures r.Ok? ==> forall i :: 0 <= i < |r.value| ==>
        r.value[i].observer == observers[i] && Some(r.value[i].oldBackend) == backend
    {
      var calls: seq<Notification> := [];
      var i := 0;
      while i < |observers|
        invariant 0 <= i <= |observers|
        invariant backend.None? ==> i == 0
        invariant |calls| == i
        invariant forall k :: 0 <= k < i ==>
          calls[k].observer == observers[k] && Some(calls[k].oldBackend) == backend
      {
        if backend.None? {
          return Err(UnknownAttribute("_backend"));
        }
        calls := calls + [Notification(observers[i], backend.value)];
        i := i + 1;
      }
      return Ok(calls);
    }
  }

  /** Two observers registered on a freshly built configuration: assigning
      the backend fails on the unset backend before either is called. Once the
      held backend is assigned directly, assigning again calls both, first to
      last, with that held backend, and the held backend stays as it was. */
  method TwoObservers(first: ObserverId, second: ObserverId, held: Backend, other: Backend)
    returns (before: Result<seq<Notification>>, after: Result<seq<Notification>>)
    ensures before == Err(UnknownAttribute("_backend"))
    ensures after == Ok([Notification(first, held), Notification(second, held)])
  {
    var made := Config.New(backend := held);
    var c := made.value;
    c.observers := c.observers + [first];
    c.observers := c.observers + [second];
    before := c.SetBackend(other);
    c.backend := Some(held);
    after := c.SetBackend(other);
    assert c.observers == [first, second];
    assert after.Ok? && |after.value| == 2;
    assert after.value[0] == Notification(first, held);
    assert after.value[1] == Notification(second, held);
    assert after.value == [Notification(first, held), Notification(second, held)];
  }
}
