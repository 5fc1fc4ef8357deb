/**
 * The motor link: one serial port to the Arduino, written with one plain
 * decimal token per angle. Real serial I/O is replaced by a log of the
 * strings written, and whether a write raises is an oracle.
 */
module ArduinoLink {
  import opened Optional
  import Decimal

  const DefaultPort := "/dev/ttyS0"
  const DefaultBaudrate := 9600
  const DefaultTimeout := 1

  /** The `serial.Serial` object: its settings and whether it is open. */
  datatype SerialPort = SerialPort(name: string, baudrate: int, timeout: int, isOpen: bool)

  /** The command written for each angle, in order: `f"{angle}"`. */
  function Tokens(angles: seq<int>): seq<string>
  {
    seq(|angles|, i requires 0 <= i < |angles| => Decimal.IntToText(angles[i]))
  }

  /** Everything the port carries, the writes run together. */
  function Concat(writes: seq<string>): string
  {
    if writes == [] then "" else writes[0] + Concat(writes[1..])
  }

  function Stream(angles: seq<int>): string
  {
    Concat(Tokens(angles))
  }

  /** Reads a sequence of writes back as the angles they encode. */
  function DecodeTokens(writes: seq<string>): Option<seq<int>>
  {
    if writes == [] then Some([])
    else match (Decimal.ParseInt(writes[0]), DecodeTokens(writes[1..]))
      case (Some(a), Some(rest)) => Some([a] + rest)
      case _ => None
  }

  /**
   * How many writes of a `send_angles` call get through: none when there is
   * no open port (the first write raises), otherwise all up to the first
   * write that raises.
   */
  function WritesDone(count: nat, connected: bool, failAt: Option<nat>): (k: nat)
    ensures k <= count
    ensures k == count <==> count == 0 || (connected && (failAt.None? || failAt.value >= count))
  {
    if !connected then 0
    else if failAt.Some? && failAt.value < count then failAt.value
    else count
  }

  /** Each write, taken on its own, gives back its angle. */
  lemma {:induction false} TokensRoundTrip(angles: seq<int>)
    ensures DecodeTokens(Tokens(angles)) == Some(angles)
    decreases |angles|
  {
    if angles != [] {
      assert Tokens(angles)[1..] == Tokens(angles[1..]);
      Decimal.IntToTextRoundTrip(angles[0]);
      TokensRoundTrip(angles[1..]);
      assert [angles[0]] + angles[1..] == angles;
    }
  }

  predicate TokenChar(c: char) { Decimal.IsDigit(c) || c == '-' }

  /** No delimiter and no newline ever reaches the port: only digits and minus signs. */
  lemma {:induction false} StreamHasNoDelimiters(angles: seq<int>)
    ensures forall j :: 0 <= j < |Stream(angles)| ==> TokenChar(Stream(angles)[j])
    decreases |angles|
  {
    if angles != [] {
      var t := Decimal.IntToText(angles[0]);
      assert Tokens(angles)[0] == t && Tokens(angles)[1..] == Tokens(angles[1..]);
      assert Stream(angles) == t + Stream(angles[1..]);
      StreamHasNoDelimiters(angles[1..]);
      forall j | 0 <= j < |t| ensures TokenChar(t[j]) {
        if j > 0 && angles[0] < 0 { assert t[j] == t[1..][j - 1]; }
      }
    }
  }

  /**
   * Run together, the writes no longer determine the angles, even for sets
   * the web front end accepts (four angles in [0, 180]): [1, 23, 5, 5] and
   * [12, 3, 5, 5] look alike on the wire.
   */
  lemma StreamIsAmbiguous()
    ensures exists a, b ::
      && |a| == 4 && |b| == 4
      && (forall i :: 0 <= i < 4 ==> 0 <= a[i] <= 180 && 0 <= b[i] <= 180)
      && a != b && Stream(a) == Stream(b)
  {
    var a, b := [1, 23, 5, 5], [12, 3, 5, 5];
    assert Decimal.DigitChar(1) == '1' && Decimal.DigitChar(2) == '2' && Decimal.DigitChar(3) == '3';
    assert Decimal.DigitChar(5) == '5';
    assert Decimal.NatToDecimal(23) == Decimal.NatToDecimal(2) + "3" == "23";
    assert Decimal.NatToDecimal(12) == Decimal.NatToDecimal(1) + "2" == "12";
    assert Tokens(a) == ["1", "23", "5", "5"] && Tokens(b) == ["12", "3", "5", "5"];
    assert Stream(a) == "12355" == Stream(b);
    assert a[0] != b[0];
  }

  class ArduinoController {
    const port: string
    const baudrate: int
    const timeout: int
    /** `self.ser`: None when the port could not be opened. */
    var ser: Option<SerialPort>
    /** The strings written to the port so far, one entry per `write` call. */
    var written: seq<string>

    /** `is_connected`: a port object exists and it is open. */
    predicate IsConnected()
      reads this
    {
      ser.Some? && ser.value.isOpen
    }

    /** `openOk` is the outcome of opening the serial device. */
    constructor (openOk: bool)
      ensures port == DefaultPort && baudrate == DefaultBaudrate && timeout == DefaultTimeout
      ensures ser == if openOk then Some(SerialPort(DefaultPort, DefaultBaudrate, DefaultTimeout, true)) else None
      ensures IsConnected() <==> openOk
      ensures written == []
    {
      port := DefaultPort;
      baudrate := DefaultBaudrate;
      timeout := DefaultTimeout;
      written := [];
      if openOk {
        ser := Some(SerialPort(DefaultPort, DefaultBaudrate, DefaultTimeout, true));
      } else {
        ser := None;
      }
    }

    /**
     * Writes one token per angle, in order. `failAt` names the write (by
     * position) that raises, if any; writing to a missing or closed port
     * raises as well. Writes before the failure stay on the wire.
     */
    method SendAngles(angles: seq<int>, failAt: Option<nat>) returns (ok: bool)
      modifies this`written
      ensures ok <==> WritesDone(|angles|, IsConnected(), failAt) == |angles|
      ensures written == old(written) + Tokens(angles[..WritesDone(|angles|, IsConnected(), failAt)])
    {
      var i := 0;
      while i < |angles|
        invariant 0 <= i <= WritesDone(|angles|, IsConnected(), failAt)
        invariant written == old(written) + Tokens(angles[..i])
      {
        if !IsConnected() || failAt == Some(i) {
          return false;
        }
        assert Tokens(angles[..i + 1]) == Tokens(angles[..i]) + [Decimal.IntToText(angles[i])];
        written := written + [Decimal.IntToText(angles[i])];
        i := i + 1;
      }
      assert angles[..i] == angles;
      return true;
    }

    /** Closes an open port; a missing or already closed port is left alone. */
    method Close()
      modifies this`ser
      ensures !IsConnected()
      ensures ser.Some? <==> old(ser).Some?
      ensures old(IsConnected()) ==> ser == Some(old(ser).value.(isOpen := false))
      ensures !old(IsConnected()) ==> ser == old(ser)
    {
      if ser.Some? && ser.value.isOpen {
        ser := Some(ser.value.(isOpen := false));
      }
    }
  }
}
