/** The consumer-control report builder: a command code selects one
    mask-then-OR edit of a small report buffer.

    Layout of the report (as documented beside the builder):
      byte 0, bits 0-3: keypad;      byte 0, bits 4-5: channel up/down;
      byte 0, bits 6-7: volume up/down;
      byte 1, bits 0-3: media buttons and digits;  byte 1, bits 4-5: button state.

    The command codes, the masks, the values the buttons write and the report
    length are constants of the device header, which is not part of this model;
    they are gathered in a `Layout` and every operation takes it as a parameter.
 */
module ConsumerControl {

  /** One button-type case of the command switch: the command code and the
      value it writes into byte 1. */
  datatype ButtonCase = ButtonCase(command: bv8, value: bv8)

  /** The constants the builder is compiled with.
      - `reportLen`: `HID_CC_IN_RPT_LEN`, the report length in bytes;
      - `channelBits`, `volumeBits`, `buttonBits`: the masks that keep the
        bits a channel, volume or button edit leaves alone;
      - `channelUpValue`, `channelDownValue`: the values of the channel field;
      - `channelUp` .. `volumeDown`: the command codes of the four byte-0
        commands;
      - `buttonCases`: the twelve button commands (mute, power, recall last,
        assign selection, play, pause, record, fast forward, rewind, scan next
        track, scan previous track, stop) in the order of the switch;
      - `keyboard1`, `keyboard0`: the command codes of digit 1 and digit 0,
        the ends of the digit range. */
  datatype Layout = Layout(
    reportLen: nat,
    channelBits: bv8,
    volumeBits: bv8,
    buttonBits: bv8,
    channelUpValue: bv8,
    channelDownValue: bv8,
    channelUp: bv8,
    channelDown: bv8,
    volumeUp: bv8,
    volumeDown: bv8,
    buttonCases: seq<ButtonCase>,
    keyboard1: bv8,
    keyboard0: bv8)

  /** The builder writes bytes 0 and 1, and a report is copied into the
      8-byte data part of a device report. */
  predicate ValidLayout(l: Layout) {
    2 <= l.reportLen <= 8
  }

  /** The edit one command makes. */
  datatype Edit =
    | SetChannel(channel: bv8)
    | VolumeUp
    | VolumeDown
    | SetButton(button: bv8)
    | NoEdit

  /** Index of the first button case whose command is `cmd`, or `|cases|` when
      there is none. */
  function FindButton(cases: seq<ButtonCase>, cmd: bv8): (i: nat)
    ensures i <= |cases|
    ensures i < |cases| ==> cases[i].command == cmd
    ensures forall j :: 0 <= j < i ==> cases[j].command != cmd
  {
    if cases == [] then 0
    else if cases[0].command == cmd then 0
    else 1 + FindButton(cases[1..], cmd)
  }

  /** Is `cmd` the code of one of the button commands? */
  predicate IsButtonCommand(l: Layout, cmd: bv8) {
    exists i :: 0 <= i < |l.buttonCases| && l.buttonCases[i].command == cmd
  }

  /** Is `cmd` one of the case labels of the switch? */
  predicate IsCaseLabel(l: Layout, cmd: bv8) {
    cmd == l.channelUp || cmd == l.channelDown || cmd == l.volumeUp ||
    cmd == l.volumeDown || IsButtonCommand(l, cmd)
  }

  /** Is `cmd` in the digit range `keyboard1 .. keyboard0`? */
  predicate InDigitRange(l: Layout, cmd: bv8) {
    l.keyboard1 <= cmd <= l.keyboard0
  }

  /** The digit a digit command stands for, computed in C `int` arithmetic
      (the operands are non-negative, so C's `%` and Dafny's agree). */
  function Digit(l: Layout, cmd: bv8): (d: nat)
    requires InDigitRange(l, cmd)
    ensures d < 10
  {
    (cmd as int - l.keyboard1 as int + 1) % 10
  }

  /** The byte a digit command ORs into byte 1; it has bits only among the
      four media-key bits 0-3. */
  function DigitValue(l: Layout, cmd: bv8): (v: bv8)
    requires InDigitRange(l, cmd)
    ensures v & 0xF0 == 0
  {
    Digit(l, cmd) as bv8
  }

  /** The switch of the builder: which edit a command selects. */
  function Dispatch(l: Layout, cmd: bv8): (e: Edit)
    ensures e.NoEdit? <==> !IsCaseLabel(l, cmd) && !InDigitRange(l, cmd)
    ensures (e.SetChannel? || e.VolumeUp? || e.VolumeDown?) <==>
      cmd == l.channelUp || cmd == l.channelDown || cmd == l.volumeUp || cmd == l.volumeDown
  {
    if cmd == l.channelUp then SetChannel(l.channelUpValue)
    else if cmd == l.channelDown then SetChannel(l.channelDownValue)
    else if cmd == l.volumeUp then VolumeUp
    else if cmd == l.volumeDown then VolumeDown
    else
      var i := FindButton(l.buttonCases, cmd);
      if i < |l.buttonCases| then SetButton(l.buttonCases[i].value)
      else if InDigitRange(l, cmd) then SetButton(DigitValue(l, cmd))
      else NoEdit
  }

  /** The mask-then-OR edits of the report macros. */
  function Apply(l: Layout, buf: seq<bv8>, e: Edit): (r: seq<bv8>)
    requires |buf| >= 2
    ensures |r| == |buf| && r[2..] == buf[2..]
    ensures (e.SetButton? || e.NoEdit?) ==> r[0] == buf[0]
    ensures !e.SetButton? ==> r[1] == buf[1]
    ensures e.NoEdit? ==> r == buf
  {
    match e
    case SetChannel(x) => buf[0 := (buf[0] & l.channelBits) | ((x & 0x03) << 4)]
    case VolumeUp => buf[0 := (buf[0] & l.volumeBits) | 0x40]
    case VolumeDown => buf[0 := (buf[0] & l.volumeBits) | 0x80]
    case SetButton(x) => buf[1 := (buf[1] & l.buttonBits) | x]
    case NoEdit => buf
  }

  /** The report `cmd` makes of `buf`. */
  function Build(l: Layout, buf: seq<bv8>, cmd: bv8): (r: seq<bv8>)
    requires |buf| >= 2
    ensures |r| == |buf| && r[2..] == buf[2..]
    ensures !IsCaseLabel(l, cmd) && !InDigitRange(l, cmd) ==> r == buf
  {
    Apply(l, buf, Dispatch(l, cmd))
  }

  /** A report of `n` zero bytes. */
  function Zeros(n: nat): (z: seq<bv8>)
    ensures |z| == n && forall i :: 0 <= i < n ==> z[i] == 0
  {
    seq(n, _ => 0)
  }

  /** `hold` with every bit of `disable` cleared, byte by byte. */
  function ClearBits(hold: seq<bv8>, disable: seq<bv8>): (r: seq<bv8>)
    requires |disable| == |hold|
    ensures |r| == |hold|
    ensures forall i :: 0 <= i < |r| ==> r[i] & disable[i] == 0
    ensures forall i :: 0 <= i < |r| ==> r[i] | disable[i] == hold[i] | disable[i]
  {
    seq(|hold|, i requires 0 <= i < |hold| => hold[i] & !disable[i])
  }

  /** `HID_CC_RPT_SET_CHANNEL`: mask byte 0 with `channelBits`, then OR the
      two-bit channel value into bits 4-5. */
  method SetChannelField(l: Layout, buf: array<bv8>, x: bv8)
    requires buf.Length >= 2
    modifies buf
    ensures buf[..] == Apply(l, old(buf[..]), SetChannel(x))
  {
    buf[0] := buf[0] & l.channelBits;
    buf[0] := buf[0] | ((x & 0x03) << 4);
  }

  /** `HID_CC_RPT_SET_VOLUME_UP` and `HID_CC_RPT_SET_VOLUME_DOWN`: mask byte 0
      with `volumeBits`, then set bit 6 (up) or bit 7 (down). */
  method SetVolumeField(l: Layout, buf: array<bv8>, up: bool)
    requires buf.Length >= 2
    modifies buf
    ensures up ==> buf[..] == Apply(l, old(buf[..]), VolumeUp)
    ensures !up ==> buf[..] == Apply(l, old(buf[..]), VolumeDown)
  {
    var bit: bv8 := if up then 0x40 else 0x80;
    buf[0] := buf[0] & l.volumeBits;
    buf[0] := buf[0] | bit;
  }

  /** `HID_CC_RPT_SET_BUTTON`: mask byte 1 with `buttonBits`, then OR in `x`. */
  method SetButtonField(l: Layout, buf: array<bv8>, x: bv8)
    requires buf.Length >= 2
    modifies buf
    ensures buf[..] == Apply(l, old(buf[..]), SetButton(x))
  {
    buf[1] := buf[1] & l.buttonBits;
    buf[1] := buf[1] | x;
  }

  /** The clearing loop of `releaseCC`: clears in `hold`, byte by byte, every
      bit that is set in `disable`. */
  method ClearHeldBits(hold: array<bv8>, disable: array<bv8>)
    requires hold != disable && hold.Length == disable.Length
    modifies hold
    ensures hold[..] == ClearBits(old(hold[..]), disable[..])
  {
    for i := 0 to hold.Length
      invariant forall j :: 0 <= j < i ==> hold[j] == old(hold[j]) & !disable[j]
      invariant forall j :: i <= j < hold.Length ==> hold[j] == old(hold[j])
    {
      hold[i] := hold[i] & !disable[i];
    }
  }

  /** `hidCCBuildReport`: applies the command's edit to `buf` in place. */
  method BuildReport(l: Layout, buf: array<bv8>, cmd: bv8)
    requires buf.Length >= 2
    modifies buf
    ensures buf[..] == Build(l, old(buf[..]), cmd)
  {
    if cmd == l.channelUp {
      SetChannelField(l, buf, l.channelUpValue);
    } else if cmd == l.channelDown {
      SetChannelField(l, buf, l.channelDownValue);
    } else if cmd == l.volumeUp {
      SetVolumeField(l, buf, true);
    } else if cmd == l.volumeDown {
      SetVolumeField(l, buf, false);
    } else {
      var i := FindButton(l.buttonCases, cmd);
      if i < |l.buttonCases| {
        SetButtonField(l, buf, l.buttonCases[i].value);
      } else if l.keyboard1 <= cmd && cmd <= l.keyboard0 {
        SetButtonField(l, buf, DigitValue(l, cmd));
      }
    }
  }

  // ---------------------------------------------------------------------------
  // Properties of the builder

  /** A channel command edits only byte 0: it keeps the bits of `channelBits`
      and ORs the two-bit channel value into bits 4-5. */
  lemma ChannelEditsByteZero(l: Layout, buf: seq<bv8>, cmd: bv8)
    requires |buf| >= 2
    requires cmd == l.channelUp || cmd == l.channelDown
    ensures var r := Build(l, buf, cmd);
      var x := if cmd == l.channelUp then l.channelUpValue else l.channelDownValue;
      |r| == |buf| && r[1..] == buf[1..] &&
      r[0] == (buf[0] & l.channelBits) | ((x & 0x03) << 4) &&
      r[0] & 0xCF == buf[0] & l.channelBits & 0xCF
  {
  }

  /** Volume up and volume down edit only byte 0: they keep the bits of
      `volumeBits` and set bit 6 (up) or bit 7 (down). */
  lemma VolumeEditsByteZero(l: Layout, buf: seq<bv8>, cmd: bv8)
    requires |buf| >= 2
    requires cmd != l.channelUp && cmd != l.channelDown
    requires cmd == l.volumeUp || cmd == l.volumeDown
    ensures var r := Build(l, buf, cmd);
      var bit: bv8 := if cmd == l.volumeUp then 0x40 else 0x80;
      |r| == |buf| && r[1..] == buf[1..] &&
      r[0] & bit != 0 && r[0] & !bit == buf[0] & l.volumeBits & !bit
  {
  }

  /** A button command edits only byte 1: it keeps the bits of `buttonBits`
      and ORs in the value of the first case with that command. */
  lemma ButtonEditsByteOne(l: Layout, buf: seq<bv8>, cmd: bv8, i: nat)
    requires |buf| >= 2
    requires !(cmd == l.channelUp || cmd == l.channelDown || cmd == l.volumeUp || cmd == l.volumeDown)
    requires i < |l.buttonCases| && l.buttonCases[i].command == cmd
    requires forall j :: 0 <= j < i ==> l.buttonCases[j].command != cmd
    ensures var r := Build(l, buf, cmd);
      |r| == |buf| && r[0] == buf[0] && r[2..] == buf[2..] &&
      r[1] == (buf[1] & l.buttonBits) | l.buttonCases[i].value
  {
    var k := FindButton(l.buttonCases, cmd);
    assert k == i;
  }

  /** Codes `keyboard1 .. keyboard1 + 8` are the digits 1 .. 9 and
      `keyboard1 + 9` is the digit 0. */
  lemma DigitOrder(l: Layout, cmd: bv8)
    requires InDigitRange(l, cmd)
    ensures cmd as int < l.keyboard1 as int + 9 ==>
      Digit(l, cmd) == cmd as int - l.keyboard1 as int + 1
    ensures cmd as int == l.keyboard1 as int + 9 ==> Digit(l, cmd) == 0
  {
  }

  /** A command in the digit range that is no case label of the switch ORs
      its digit into byte 1 and edits nothing else. */
  lemma DigitEditsByteOne(l: Layout, buf: seq<bv8>, cmd: bv8)
    requires |buf| >= 2
    requires !IsCaseLabel(l, cmd) && InDigitRange(l, cmd)
    ensures var r := Build(l, buf, cmd);
      |r| == |buf| && r[0] == buf[0] && r[2..] == buf[2..] &&
      r[1] == (buf[1] & l.buttonBits) | DigitValue(l, cmd)
  {
    assert Dispatch(l, cmd) == SetButton(DigitValue(l, cmd));
  }

  /** A command that is neither a case label nor in the digit range leaves
      the report as it was. */
  lemma OtherCommandsChangeNothing(l: Layout, buf: seq<bv8>, cmd: bv8)
    requires |buf| >= 2
    requires !IsCaseLabel(l, cmd) && !InDigitRange(l, cmd)
    ensures Build(l, buf, cmd) == buf
  {
  }

  /** Bytes past the first two are never touched. */
  lemma BuildKeepsTail(l: Layout, buf: seq<bv8>, cmd: bv8)
    requires |buf| >= 2
    ensures |Build(l, buf, cmd)| == |buf| && Build(l, buf, cmd)[2..] == buf[2..]
  {
  }

  /** Applying the same command twice is the same as applying it once, so
      holding a command that is already held reports the same buffer. */
  lemma BuildIdempotent(l: Layout, buf: seq<bv8>, cmd: bv8)
    requires |buf| >= 2
    ensures Build(l, Build(l, buf, cmd), cmd) == Build(l, buf, cmd)
  {
    ApplyIdempotent(l, buf, Dispatch(l, cmd));
  }

  /** Each mask-then-OR edit, made twice, gives what it gives once. */
  lemma ApplyIdempotent(l: Layout, buf: seq<bv8>, e: Edit)
    requires |buf| >= 2
    ensures Apply(l, Apply(l, buf, e), e) == Apply(l, buf, e)
  {
    match e
    case SetChannel(x) =>
      MaskThenOrTwice(buf[0], l.channelBits, (x & 0x03) << 4);
    case VolumeUp =>
      MaskThenOrTwice(buf[0], l.volumeBits, 0x40);
    case VolumeDown =>
      MaskThenOrTwice(buf[0], l.volumeBits, 0x80);
    case SetButton(x) =>
      MaskThenOrTwice(buf[1], l.buttonBits, x);
    case NoEdit =>
  }

  /** Masking with `m` and then ORing in `f` a second time changes nothing. */
  lemma MaskThenOrTwice(a: bv8, m: bv8, f: bv8)
    ensures (((a & m) | f) & m) | f == (a & m) | f
  {
  }


  /** Holding a command on an idle (all-zero) hold buffer and then releasing
      it returns the hold buffer to idle. */
  lemma HoldThenReleaseIsIdle(l: Layout, cmd: bv8)
    requires ValidLayout(l)
    ensures var z := Zeros(l.reportLen);
      ClearBits(Build(l, z, cmd), Build(l, z, cmd)) == z
  {
    var z := Zeros(l.reportLen);
    var d := Build(l, z, cmd);
    var r := ClearBits(d, d);
    assert forall i :: 0 <= i < |r| ==> r[i] == d[i] & !d[i];
  }

  /** Releasing never sets a bit: every bit of the hold buffer afterwards was
      already set before. */
  lemma ReleaseNeverSetsBits(hold: seq<bv8>, disable: seq<bv8>, i: int)
    requires |disable| == |hold| && 0 <= i < |hold|
    ensures ClearBits(hold, disable)[i] & !hold[i] == 0
  {
  }

  /** Releasing a command that edits byte 1 (a button or a digit) leaves byte 0
      of the hold buffer, with its channel and volume bits, and every byte
      after byte 1 as they were, whatever is held. */
  lemma ReleaseByteOneCommandKeepsRest(l: Layout, hold: seq<bv8>, cmd: bv8)
    requires ValidLayout(l) && |hold| == l.reportLen
    requires Dispatch(l, cmd).SetButton?
    ensures var r := ClearBits(hold, Build(l, Zeros(l.reportLen), cmd));
      r[0] == hold[0] && r[2..] == hold[2..]
  {
    var z := Zeros(l.reportLen);
    var d := Build(l, z, cmd);
    var r := ClearBits(hold, d);
    assert d[0] == 0;
    forall i | 2 <= i < |hold|
      ensures r[i] == hold[i]
    {
      assert d[i] == d[2..][i - 2] == z[2..][i - 2] == 0;
    }
    assert r[0] == hold[0] & !d[0];
  }
}
