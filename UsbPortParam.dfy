/**
 * The parameters of a USB serial port: the device, the baud rate and the line
 * format (data bits, stop bits, parity), with the defaults 8, 1 and 0 and the
 * normalisation of the seven-argument constructor.
 */
module UsbPort {
  import opened Wrappers

  /** An Android `UsbDevice`, by identity. */
  datatype UsbDevice = UsbDevice(id: nat)

  const DefaultDataBits := 8
  const DefaultStopBits := 1
  const DefaultParity := 0

  /** The line format held next to the baud rate. */
  datatype LineFormat = LineFormat(dataBits: int, stopBits: int, parity: int)

  const DefaultFormat := LineFormat(DefaultDataBits, DefaultStopBits, DefaultParity)

  /** A negative argument falls back to `fallback`; any other is kept. */
  function NonNegativeOr(v: int, fallback: int): (r: int)
    ensures v >= 0 ==> r == v
    ensures v < 0 ==> r == fallback
  {
    if v >= 0 then v else fallback
  }

  /** The format the seven-argument constructor stores. */
  function NormalFormat(dataBits: int, stopBits: int, parity: int): (f: LineFormat)
    ensures f.dataBits == NonNegativeOr(dataBits, DefaultDataBits)
    ensures f.stopBits == NonNegativeOr(stopBits, DefaultStopBits)
    ensures f.parity == NonNegativeOr(parity, DefaultParity)
  {
    LineFormat(NonNegativeOr(dataBits, DefaultDataBits), NonNegativeOr(stopBits, DefaultStopBits),
               NonNegativeOr(parity, DefaultParity))
  }

  /** The baud rate the seven-argument constructor stores. */
  function NormalBaudrate(baudrate: int): (b: int)
    ensures b >= 0
    ensures baudrate >= 0 ==> b == baudrate
    ensures baudrate < 0 ==> b == 0
  {
    NonNegativeOr(baudrate, 0)
  }

  /** Every stored value is non-negative, since the defaults are. */
  lemma NormalFormatNonNegative(dataBits: int, stopBits: int, parity: int)
    ensures var f := NormalFormat(dataBits, stopBits, parity);
            f.dataBits >= 0 && f.stopBits >= 0 && f.parity >= 0
  {
  }

  /** Normalising again changes nothing, and the defaults are a fixed point. */
  lemma NormalFormatIdempotent(baudrate: int, dataBits: int, stopBits: int, parity: int)
    ensures var f := NormalFormat(dataBits, stopBits, parity);
            NormalFormat(f.dataBits, f.stopBits, f.parity) == f
    ensures NormalFormat(DefaultDataBits, DefaultStopBits, DefaultParity) == DefaultFormat
    ensures NormalBaudrate(NormalBaudrate(baudrate)) == NormalBaudrate(baudrate)
  {
  }

  /** Arguments that are all negative give exactly the defaults. */
  lemma NegativeGivesDefaults(dataBits: int, stopBits: int, parity: int)
    requires dataBits < 0 && stopBits < 0 && parity < 0
    ensures NormalFormat(dataBits, stopBits, parity) == DefaultFormat
  {
  }

  class UsbPortParam {
    var usbDevice: Option<UsbDevice>
    var baudrate: int
    var dataBits: int
    var stopBits: int
    var parity: int

    function Format(): LineFormat
      reads this
    {
      LineFormat(dataBits, stopBits, parity)
    }

    /** `UsbPortParam(usbDevice, baudrate)`: the baud rate is kept as given, the format is the default. */
    constructor (usbDevice: Option<UsbDevice>, baudrate: int)
      ensures this.usbDevice == usbDevice && this.baudrate == baudrate
      ensures Format() == DefaultFormat
    {
      this.usbDevice := usbDevice;
      this.baudrate := baudrate;
      dataBits := DefaultDataBits;
      stopBits := DefaultStopBits;
      parity := DefaultParity;
    }

    /**
     * `UsbPortParam(context, vid, pid, baudrate)`; `found` is what the device
     * finder returns for (vid, pid).
     */
    constructor WithLookup(found: Option<UsbDevice>, baudrate: int)
      ensures usbDevice == found && this.baudrate == baudrate
      ensures Format() == DefaultFormat
    {
      usbDevice := found;
      this.baudrate := baudrate;
      dataBits := DefaultDataBits;
      stopBits := DefaultStopBits;
      parity := DefaultParity;
    }

    /**
     * `UsbPortParam(context, vid, pid, baudrate, dataBits, stopBits, parity)`:
     * a negative baud rate becomes 0 and a negative format value its default.
     */
    constructor Normalised(found: Option<UsbDevice>, baudrate: int, dataBits: int, stopBits: int, parity: int)
      ensures usbDevice == found && this.baudrate == NormalBaudrate(baudrate)
      ensures Format() == NormalFormat(dataBits, stopBits, parity)
    {
      usbDevice := found;
      this.dataBits := DefaultDataBits;
      this.stopBits := DefaultStopBits;
      this.parity := DefaultParity;
      this.baudrate := if baudrate >= 0 then baudrate else 0;
      new;
      this.dataBits := if dataBits >= 0 then dataBits else this.dataBits;
      this.stopBits := if stopBits >= 0 then stopBits else this.stopBits;
      this.parity := if parity >= 0 then parity else this.parity;
    }

    method GetUsbDevice() returns (d: Option<UsbDevice>)
      ensures d == usbDevice
    {
      d := usbDevice;
    }

    method SetUsbDevice(usbDevice: Option<UsbDevice>)
      modifies this`usbDevice
      ensures this.usbDevice == usbDevice
    {
      this.usbDevice := usbDevice;
    }

    /** `setUsbDevice(context, vid, pid)`; `found` is what the device finder returns. */
    method LookUpUsbDevice(found: Option<UsbDevice>)
      modifies this`usbDevice
      ensures usbDevice == found
    {
      usbDevice := found;
    }

    method GetBaudrate() returns (b: int)
      ensures b == baudrate
    {
      b := baudrate;
    }

    /** The setters store the value as given: unlike the constructor, they do not normalise. */
    method SetBaudrate(baudrate: int)
      modifies this`baudrate
      ensures this.baudrate == baudrate
    {
      this.baudrate := baudrate;
    }

    method GetDataBits() returns (d: int)
      ensures d == dataBits
    {
      d := dataBits;
    }

    method SetDataBits(dataBits: int)
      modifies this`dataBits
      ensures this.dataBits == dataBits
    {
      this.dataBits := dataBits;
    }

    method GetStopBits() returns (s: int)
      ensures s == stopBits
    {
      s := stopBits;
    }

    method SetStopBits(stopBits: int)
      modifies this`stopBits
      ensures this.stopBits == stopBits
    {
      this.stopBits := stopBits;
    }

    method GetParity() returns (p: int)
      ensures p == parity
    {
      p := parity;
    }

    method SetParity(parity: int)
      modifies this`parity
      ensures this.parity == parity
    {
      this.parity := parity;
    }
  }

  /** A setter followed by the matching getter returns the value set, and the other fields keep theirs. */
  method SetThenGetDataBits(u: UsbPortParam, v: int) returns (got: int)
    modifies u
    ensures got == v
    ensures u.usbDevice == old(u.usbDevice) && u.baudrate == old(u.baudrate)
    ensures u.stopBits == old(u.stopBits) && u.parity == old(u.parity)
  {
    u.SetDataBits(v);
    got := u.GetDataBits();
  }

  method SetThenGetBaudrate(u: UsbPortParam, v: int) returns (got: int)
    modifies u
    ensures got == v && u.Format() == old(u.Format()) && u.usbDevice == old(u.usbDevice)
  {
    u.SetBaudrate(v);
    got := u.GetBaudrate();
  }

  method SetThenGetStopBits(u: UsbPortParam, v: int) returns (got: int)
    modifies u
    ensures got == v && u.baudrate == old(u.baudrate) && u.dataBits == old(u.dataBits)
    ensures u.parity == old(u.parity) && u.usbDevice == old(u.usbDevice)
  {
    u.SetStopBits(v);
    got := u.GetStopBits();
  }

  method SetThenGetParity(u: UsbPortParam, v: int) returns (got: int)
    modifies u
    ensures got == v && u.baudrate == old(u.baudrate) && u.dataBits == old(u.dataBits)
    ensures u.stopBits == old(u.stopBits) && u.usbDevice == old(u.usbDevice)
  {
    u.SetParity(v);
    got := u.GetParity();
  }

  method SetThenGetUsbDevice(u: UsbPortParam, d: Option<UsbDevice>) returns (got: Option<UsbDevice>)
    modifies u
    ensures got == d && u.baudrate == old(u.baudrate) && u.Format() == old(u.Format())
  {
    u.SetUsbDevice(d);
    got := u.GetUsbDevice();
  }
}
