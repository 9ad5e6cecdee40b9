/**
 * Devices and commands: the entries of every command queue of the plugin,
 * and the process-wide serial counter that tags synchronous commands.
 */
module Commands {
  import opened Wrappers

  // Logical addresses of libCEC's cec_logical_address that the model uses.
  const CecDeviceUnknown: int := -1
  const CecDeviceTv: int := 0
  const CecDeviceBroadcast: int := 15
  /** libCEC's CEC_OPCODE_NONE. */
  const CecOpcodeNone: int := 0xFD

  /** A `uint16_t`. */
  type Uint16 = x: int | 0 <= x < 0x1_0000

  /** cCECDevice: a physical address and the configured and resolved
      logical addresses. */
  datatype Device = Device(physicalAddress: Uint16, logicalDefined: int, logicalUsed: int)

  /** The default-constructed device: nothing is known about it. */
  function NewDevice(): (d: Device)
    ensures d.physicalAddress == 0
    ensures d.logicalDefined == CecDeviceUnknown && d.logicalUsed == CecDeviceUnknown
  {
    Device(0, CecDeviceUnknown, CecDeviceUnknown)
  }

  /** cCECDevice::operator=: the target's old fields play no part. */
  function AssignDevice(target: Device, c: Device): (r: Device)
    ensures r == c
  {
    Device(c.physicalAddress, c.logicalDefined, c.logicalUsed)
  }

  /** The CECCommand enumeration. */
  datatype CommandKind =
    | Invalid | Exit | KeyPress | MakeActive | MakeInactive | PowerOn | PowerOff
    | VdrKeyPress | ExecShell | ExecToggle | TextViewOn | Reconnect | Connect
    | Disconnect | Command

  /** The enumerator values in declaration order: CEC_INVALID is -1, then CEC_EXIT = 0 and one more for each enumerator after it. */
  function KindValue(k: CommandKind): (v: int)
    ensures -1 <= v <= 13
    ensures (v == -1) <==> k == Invalid
    ensures (v == 0) <==> k == Exit
  {
    match k
    case Invalid => -1
    case Exit => 0
    case KeyPress => 1
    case MakeActive => 2
    case MakeInactive => 3
    case PowerOn => 4
    case PowerOff => 5
    case VdrKeyPress => 6
    case ExecShell => 7
    case ExecToggle => 8
    case TextViewOn => 9
    case Reconnect => 10
    case Connect => 11
    case Disconnect => 12
    case Command => 13
  }

  /** The enumerator with a given value, if any. */
  function KindOfValue(v: int): (r: Option<CommandKind>)
    ensures r.Some? <==> -1 <= v <= 13
  {
    if v == -1 then Some(Invalid)
    else if v == 0 then Some(Exit)
    else if v == 1 then Some(KeyPress)
    else if v == 2 then Some(MakeActive)
    else if v == 3 then Some(MakeInactive)
    else if v == 4 then Some(PowerOn)
    else if v == 5 then Some(PowerOff)
    else if v == 6 then Some(VdrKeyPress)
    else if v == 7 then Some(ExecShell)
    else if v == 8 then Some(ExecToggle)
    else if v == 9 then Some(TextViewOn)
    else if v == 10 then Some(Reconnect)
    else if v == 11 then Some(Connect)
    else if v == 12 then Some(Disconnect)
    else if v == 13 then Some(Command)
    else None
  }

  /** Distinct enumerators have distinct values, and every value maps back. */
  lemma KindValueRoundTrip(k: CommandKind, v: int)
    ensures KindOfValue(KindValue(k)) == Some(k)
    ensures KindOfValue(v) == Some(k) ==> KindValue(k) == v
  {
  }

  /** cCmd: the command kind and its nine payload fields. */
  datatype Cmd = Cmd(
    kind: CommandKind,
    val: int,
    device: Device,
    exec: string,
    serial: int,
    powerOn: seq<Cmd>,
    powerOff: seq<Cmd>,
    opcode: int,
    sourceAddress: int)

  /** A default-constructed cCmd. */
  function DefaultCmd(): (c: Cmd)
    ensures c.kind == Invalid && c.val == -1 && c.device == NewDevice()
    ensures c.exec == "" && c.serial == -1 && c.powerOn == [] && c.powerOff == []
    ensures c.opcode == CecOpcodeNone && c.sourceAddress == CecDeviceUnknown
  {
    Cmd(Invalid, -1, NewDevice(), "", -1, [], [], CecOpcodeNone, CecDeviceUnknown)
  }

  /** The basic constructor: kind, value, the device only when one is given,
      and the shell text; every other field keeps its default. */
  function NewCmd(kind: CommandKind, val: int, dev: Option<Device>, exec: string): (c: Cmd)
    ensures c.kind == kind && c.val == val && c.exec == exec
    ensures c.device == (if dev.Some? then dev.value else NewDevice())
    ensures c.serial == -1 && c.powerOn == [] && c.powerOff == []
    ensures c.opcode == CecOpcodeNone && c.sourceAddress == CecDeviceUnknown
  {
    var c := DefaultCmd().(kind := kind, val := val);
    var c := if dev.Some? then c.(device := AssignDevice(c.device, dev.value)) else c;
    c.(exec := exec)
  }

  /** The toggle constructor: a device and the two sub-queues. */
  function NewToggleCmd(kind: CommandKind, dev: Device, powerOn: seq<Cmd>, powerOff: seq<Cmd>): (c: Cmd)
    ensures c.kind == kind && c.device == dev && c.powerOn == powerOn && c.powerOff == powerOff
    ensures c.val == -1 && c.exec == "" && c.serial == -1
    ensures c.opcode == CecOpcodeNone && c.sourceAddress == CecDeviceUnknown
  {
    DefaultCmd().(kind := kind, device := dev, powerOn := powerOn, powerOff := powerOff)
  }

  /** The opcode constructor: an opcode and the initiator's address. */
  function NewOpcodeCmd(kind: CommandKind, opcode: int, initiator: int): (c: Cmd)
    ensures c.kind == kind && c.opcode == opcode && c.sourceAddress == initiator
    ensures c.val == -1 && c.device == NewDevice() && c.exec == "" && c.serial == -1
    ensures c.powerOn == [] && c.powerOff == []
  {
    DefaultCmd().(kind := kind, opcode := opcode, sourceAddress := initiator)
  }

  /** cCmd::operator=: all nine fields are copied, nothing of the target survives. */
  function AssignCmd(target: Cmd, c: Cmd): (r: Cmd)
    ensures r == c
  {
    Cmd(c.kind, c.val, AssignDevice(target.device, c.device), c.exec, c.serial,
        c.powerOn, c.powerOff, c.opcode, c.sourceAddress)
  }

  // ------------------------------------------------------------ serials

  const SerialLimit: int := 10000
  /** The initial value of the static counter inside `getSerial`. */
  const InitialSerial: int := 1

  /** The successor of a serial: counts up and wraps from 10000 to 1. */
  function NextSerial(s: int): (r: int)
    requires 1 <= s <= SerialLimit
    ensures 1 <= r <= SerialLimit
    ensures r == s % SerialLimit + 1
  {
    if s + 1 > SerialLimit then 1 else s + 1
  }

  /** The serial handed out by the k-th call after the counter stood at s. */
  function SerialAfter(s: int, k: nat): (r: int)
    requires 1 <= s <= SerialLimit
    ensures 1 <= r <= SerialLimit
  {
    if k == 0 then s else NextSerial(SerialAfter(s, k - 1))
  }

  /** Closed form of the counter: it advances by one modulo 10000. */
  lemma {:induction false} SerialAfterClosedForm(s: int, k: nat)
    requires 1 <= s <= SerialLimit
    ensures SerialAfter(s, k) == (s - 1 + k) % SerialLimit + 1
  {
    if k > 0 {
      SerialAfterClosedForm(s, k - 1);
      var p := (s - 1 + k - 1) % SerialLimit;
      assert SerialAfter(s, k) == (p + 1) % SerialLimit + 1;
      ModStep(s - 1 + k - 1);
    }
  }

  lemma ModStep(x: int)
    requires x >= 0
    ensures (x % SerialLimit + 1) % SerialLimit == (x + 1) % SerialLimit
  {
  }

  /** Fewer than 10000 consecutive calls never hand out the same serial twice. */
  lemma SerialsDistinct(s: int, i: nat, j: nat)
    requires 1 <= s <= SerialLimit
    requires i < j < i + SerialLimit
    ensures SerialAfter(s, i) != SerialAfter(s, j)
  {
    SerialAfterClosedForm(s, i);
    SerialAfterClosedForm(s, j);
  }

  /**
   * The static counter behind `cCmd::getSerial`. The call never reads or
   * writes the command's own `mSerial`; the caller stores the result.
   */
  class SerialAllocator {
    var serial: int

    ghost predicate Valid() reads this { 1 <= serial <= SerialLimit }

    constructor ()
      ensures Valid() && serial == InitialSerial
    {
      serial := InitialSerial;
    }

    method GetSerial() returns (r: int)
      requires Valid()
      modifies this
      ensures Valid()
      ensures r == NextSerial(old(serial)) && serial == r
    {
      serial := serial + 1;
      if serial > SerialLimit {
        serial := 1;
      }
      r := serial;
    }
  }

  /** The first serial a fresh counter hands out is 2. */
  method FirstSerial() returns (r: int)
    ensures r == 2
  {
    var a := new SerialAllocator();
    r := a.GetSerial();
  }
}
