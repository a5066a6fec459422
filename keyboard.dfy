/** The keyboard side of the HID layer: a persistent boot-keyboard report (one
    modifier byte and six key slots, as in Appendix B.1 of the USB Device Class
    Definition for HID 1.11) that `Press`, `Release`, `ReleaseAll` and `Write`
    edit and send, and the consumer-control commands with their hold buffer.

    A key code is read three ways: codes 136 and up are non-printing keys whose
    usage is the code minus 136; codes 128 .. 135 are the eight modifier keys;
    codes below 128 are ASCII characters looked up in `AsciiMap.Table`.
 */
module BeanKeyboard {
  import opened HidReport
  import AsciiMap
  import CC = ConsumerControl

  /** The left-shift bit of the modifier byte. */
  const LeftShift: bv8 := 0x02

  /** What a key code stands for. */
  datatype KeyKind =
    | NonPrinting(usage: bv8)
    | Modifier(bit: bv8)
    | Printing(usage: bv8, shifted: bool)
    | Unmapped

  /** How an ASCII character reads through the table: a usage with the shift
      flag split off, or no key at all. */
  function CharKind(c: bv8): (t: KeyKind)
    requires c < 128
    ensures t.Printing? || t.Unmapped?
    ensures t.Unmapped? <==> AsciiMap.Table[c as int] == 0
    ensures t.Printing? ==>
      t.usage != 0 && t.usage & AsciiMap.Shift == 0 &&
      t.usage | (if t.shifted then AsciiMap.Shift else 0) == AsciiMap.Table[c as int]
  {
    var entry := AsciiMap.Table[c as int];
    if entry == 0 then Unmapped
    else
      AsciiMap.MappedUsageNonZero(c as nat);
      Printing(entry & AsciiMap.UsageMask, entry & AsciiMap.Shift != 0)
  }

  /** The three-way reading of a key code shared by `press` and `release`. */
  function Classify(k: bv8): (t: KeyKind)
    ensures t.NonPrinting? <==> k >= 136
    ensures t.Modifier? <==> 128 <= k < 136
    ensures t.Unmapped? <==> k < 128 && AsciiMap.Table[k as int] == 0
    ensures t.NonPrinting? ==> t.usage as int == k as int - 136
    ensures t.Modifier? ==> t.bit == 1 << (k - 128)
    ensures t.Printing? ==>
      t.usage != 0 && t.usage & AsciiMap.Shift == 0 &&
      t.usage | (if t.shifted then AsciiMap.Shift else 0) == AsciiMap.Table[k as int]
  {
    if k >= 136 then NonPrinting(k - 136)
    else if k >= 128 then Modifier(1 << (k - 128))
    else CharKind(k)
  }

  /** The usage a key puts into a slot; a modifier key puts 0, which is never
      stored (0 marks an empty slot). */
  function SlotUsage(t: KeyKind): bv8 {
    match t
    case NonPrinting(u) => u
    case Printing(u, _) => u
    case _ => 0
  }

  /** The modifier bits a key sets when pressed and clears when released. */
  function ModifierBits(t: KeyKind): bv8 {
    match t
    case Modifier(b) => b
    case Printing(_, shifted) => if shifted then LeftShift else 0
    case _ => 0
  }

  /** The persistent key report: the modifier byte and the six key slots. */
  datatype KeyReport = KeyReport(modifiers: bv8, keys: seq<bv8>)

  /** The report with nothing pressed. */
  const EmptyReport := KeyReport(0, [0, 0, 0, 0, 0, 0])

  /** The report after an operation, and whether the operation succeeded
      (returned 1 and sent the report) or failed (returned 0, sent nothing). */
  datatype Outcome = Outcome(report: KeyReport, ok: bool)

  /** The reports an operation with outcome `o` sends. */
  function Sent(o: Outcome): seq<Report> {
    if o.ok then [KeyboardReport(o.report.modifiers, o.report.keys)] else []
  }

  /** No non-zero usage is held in two slots. */
  predicate NoDuplicateKeys(keys: seq<bv8>) {
    forall i, j :: 0 <= i < j < |keys| && keys[i] != 0 ==> keys[i] != keys[j]
  }

  /** Slot `i` is the first empty slot of `keys`. */
  predicate IsFirstFree(keys: seq<bv8>, i: int) {
    0 <= i < |keys| && keys[i] == 0 && forall j :: 0 <= j < i ==> keys[j] != 0
  }

  /** Index of the first empty slot, or `|keys|` when every slot is in use. */
  function FirstFree(keys: seq<bv8>): (i: nat)
    ensures i <= |keys|
    ensures i < |keys| ==> keys[i] == 0
    ensures forall j :: 0 <= j < i ==> keys[j] != 0
  {
    if keys == [] then 0
    else if keys[0] == 0 then 0
    else 1 + FirstFree(keys[1..])
  }

  /** `keys` with every slot that holds `u` emptied; usage 0 clears nothing. */
  function ClearUsage(keys: seq<bv8>, u: bv8): (r: seq<bv8>)
    ensures |r| == |keys|
    ensures u != 0 ==> u !in r
    ensures forall j :: 0 <= j < |r| ==> r[j] == keys[j] || r[j] == 0
    ensures forall j :: 0 <= j < |r| && keys[j] != u ==> r[j] == keys[j]
  {
    seq(|keys|, j requires 0 <= j < |keys| => if u != 0 && keys[j] == u then 0 else keys[j])
  }

  /** Adds usage `u` to the slots unless it is already there: into the first
      empty slot, failing when there is none. */
  function AddUsage(keys: seq<bv8>, u: bv8): (r: (seq<bv8>, bool))
    ensures |r.0| == |keys|
    ensures r.1 <==> u in keys || 0 in keys
    ensures r.1 ==> u in r.0
    ensures !r.1 ==> r.0 == keys
  {
    if u in keys then (keys, true)
    else
      var i := FirstFree(keys);
      if i < |keys| then
        assert keys[i := u][i] == u;
        (keys[i := u], true)
      else (keys, false)
  }

  /** What `press(k)` does to report `r`. */
  function PressResult(r: KeyReport, k: bv8): (o: Outcome)
    requires |r.keys| == KeySlots
    ensures |o.report.keys| == KeySlots
    ensures Classify(k).Unmapped? ==> o == Outcome(r, false)
    ensures o.report.modifiers & r.modifiers == r.modifiers
    ensures !o.ok ==> o.report.keys == r.keys
  {
    var t := Classify(k);
    if t.Unmapped? then Outcome(r, false)
    else
      var added := AddUsage(r.keys, SlotUsage(t));
      Outcome(KeyReport(r.modifiers | ModifierBits(t), added.0), added.1)
  }

  /** What `release(k)` does to report `r`. */
  function ReleaseResult(r: KeyReport, k: bv8): (o: Outcome)
    requires |r.keys| == KeySlots
    ensures |o.report.keys| == KeySlots
    ensures o.ok <==> !Classify(k).Unmapped?
    ensures o.report.modifiers & !r.modifiers == 0
    ensures forall j :: 0 <= j < KeySlots ==> o.report.keys[j] == r.keys[j] || o.report.keys[j] == 0
  {
    var t := Classify(k);
    if t.Unmapped? then Outcome(r, false)
    else Outcome(KeyReport(r.modifiers & !ModifierBits(t), ClearUsage(r.keys, SlotUsage(t))), true)
  }

  // ---------------------------------------------------------------------------
  // Properties of press and release

  /** A printing character without a key fails to press and changes nothing. */
  lemma PressUnmapped(r: KeyReport, k: bv8)
    requires |r.keys| == KeySlots
    requires k < 128 && AsciiMap.Table[k as int] == 0
    ensures PressResult(r, k) == Outcome(r, false)
  {
  }

  /** A press succeeds exactly when the key is mapped and its usage is already
      held or a slot is free. */
  lemma PressSucceedsIff(r: KeyReport, k: bv8)
    requires |r.keys| == KeySlots
    ensures PressResult(r, k).ok <==>
      !Classify(k).Unmapped? && (SlotUsage(Classify(k)) in r.keys || 0 in r.keys)
  {
    var t := Classify(k);
    if !t.Unmapped? && SlotUsage(t) !in r.keys && 0 in r.keys {
      var z :| 0 <= z < |r.keys| && r.keys[z] == 0;
      assert FirstFree(r.keys) <= z;
    }
  }

  /** A mapped key sets its modifier bit (`1 << (k - 128)` for a modifier key,
      left shift for a shifted character) whether or not the press succeeds. */
  lemma PressSetsModifiers(r: KeyReport, k: bv8)
    requires |r.keys| == KeySlots
    requires !Classify(k).Unmapped?
    ensures var m := PressResult(r, k).report.modifiers;
      m == r.modifiers | ModifierBits(Classify(k)) &&
      (128 <= k < 136 ==> m == r.modifiers | (1 << (k - 128))) &&
      (Classify(k).Printing? && Classify(k).shifted ==> m == r.modifiers | LeftShift)
  {
  }

  /** A successful press stores the usage in at most one slot: nothing changes
      when the usage is already held, and otherwise only the first empty slot
      changes, to the usage. */
  lemma PressStoresInFirstFreeSlot(r: KeyReport, k: bv8)
    requires |r.keys| == KeySlots
    requires PressResult(r, k).ok
    ensures var u := SlotUsage(Classify(k));
      var keys := PressResult(r, k).report.keys;
      u in keys &&
      (u in r.keys ==> keys == r.keys) &&
      (u !in r.keys ==> exists i :: IsFirstFree(r.keys, i) && keys == r.keys[i := u])
  {
    var u := SlotUsage(Classify(k));
    if u !in r.keys {
      var i := FirstFree(r.keys);
      assert IsFirstFree(r.keys, i);
      assert PressResult(r, k).report.keys == r.keys[i := u];
      assert r.keys[i := u][i] == u;
    }
  }

  /** When all six slots are in use and none holds the usage, the press fails
      and leaves the slots alone, but keeps the modifier bit it set. */
  lemma PressFullReport(r: KeyReport, k: bv8)
    requires |r.keys| == KeySlots
    requires !Classify(k).Unmapped?
    requires forall j :: 0 <= j < KeySlots ==> r.keys[j] != 0
    requires SlotUsage(Classify(k)) !in r.keys
    ensures PressResult(r, k) ==
      Outcome(KeyReport(r.modifiers | ModifierBits(Classify(k)), r.keys), false)
  {
    assert FirstFree(r.keys) == KeySlots;
  }

  /** As written, even a modifier key, which needs no slot, fails to press
      when all six slots are in use; its bit stays set but no report goes out. */
  lemma ModifierPressOnFullReport(r: KeyReport, k: bv8)
    requires |r.keys| == KeySlots
    requires 128 <= k < 136
    requires forall j :: 0 <= j < KeySlots ==> r.keys[j] != 0
    ensures var o := PressResult(r, k);
      !o.ok && o.report.keys == r.keys && o.report.modifiers == r.modifiers | (1 << (k - 128))
  {
    PressFullReport(r, k);
  }

  /** Pressing never puts a usage into a second slot. */
  lemma PressKeepsNoDuplicates(r: KeyReport, k: bv8)
    requires |r.keys| == KeySlots && NoDuplicateKeys(r.keys)
    ensures NoDuplicateKeys(PressResult(r, k).report.keys)
  {
    var t := Classify(k);
    var u := SlotUsage(t);
    if !t.Unmapped? && u !in r.keys {
      var i := FirstFree(r.keys);
      if i < |r.keys| {
        var keys := r.keys[i := u];
        forall a, b | 0 <= a < b < |keys| && keys[a] != 0
          ensures keys[a] != keys[b]
        {
          if a == i {
            assert keys[b] == r.keys[b];
          } else if b == i {
            assert keys[a] == r.keys[a];
          }
        }
      }
    }
  }

  /** A mapped key always releases: it clears its modifier bit, empties every
      slot holding its usage and leaves every other slot where it was. */
  lemma ReleaseClears(r: KeyReport, k: bv8)
    requires |r.keys| == KeySlots
    requires !Classify(k).Unmapped?
    ensures var o := ReleaseResult(r, k);
      var u := SlotUsage(Classify(k));
      o.ok && o.report.modifiers == r.modifiers & !ModifierBits(Classify(k)) &&
      o.report.modifiers & ModifierBits(Classify(k)) == 0 &&
      |o.report.keys| == KeySlots && (u != 0 ==> u !in o.report.keys) &&
      forall j :: 0 <= j < KeySlots ==>
        (r.keys[j] != u ==> o.report.keys[j] == r.keys[j]) &&
        (o.report.keys[j] == r.keys[j] || o.report.keys[j] == 0)
  {
  }

  /** A printing character without a key fails to release, without setting
      the write error, and changes nothing. */
  lemma ReleaseUnmapped(r: KeyReport, k: bv8)
    requires |r.keys| == KeySlots
    requires k < 128 && AsciiMap.Table[k as int] == 0
    ensures ReleaseResult(r, k) == Outcome(r, false)
  {
  }

  /** Releasing never puts a usage into a second slot. */
  lemma ReleaseKeepsNoDuplicates(r: KeyReport, k: bv8)
    requires |r.keys| == KeySlots && NoDuplicateKeys(r.keys)
    ensures NoDuplicateKeys(ReleaseResult(r, k).report.keys)
  {
  }

  /** Pressing and releasing a mapped key that was not held (the two halves of
      `write`) gives back the slots as they were; of the modifiers only the
      key's own bit ends up cleared. */
  lemma WriteRestoresSlots(r: KeyReport, c: bv8)
    requires |r.keys| == KeySlots
    requires PressResult(r, c).ok && SlotUsage(Classify(c)) !in r.keys
    ensures ReleaseResult(PressResult(r, c).report, c).report ==
      KeyReport(r.modifiers & !ModifierBits(Classify(c)), r.keys)
  {
    var t := Classify(c);
    var u := SlotUsage(t);
    var i := FirstFree(r.keys);
    var pressed := r.keys[i := u];
    assert PressResult(r, c).report.keys == pressed;
    var released := ClearUsage(pressed, u);
    forall j | 0 <= j < KeySlots
      ensures released[j] == r.keys[j]
    {
      if j != i {
        assert pressed[j] == r.keys[j];
      }
    }
    assert released == r.keys;
  }

  /** The translation step that opens both `press` and `release`: the usage
      the key puts into a slot, the modifier bits it touches, and whether the
      key is mapped at all. */
  method TranslateKey(k: bv8) returns (code: bv8, bits: bv8, mapped: bool)
    ensures mapped <==> !Classify(k).Unmapped?
    ensures mapped ==> code == SlotUsage(Classify(k)) && bits == ModifierBits(Classify(k))
  {
    mapped := true;
    bits := 0;
    if k >= 136 {
      code := k - 136;
    } else if k >= 128 {
      bits := 1 << (k - 128);
      code := 0;
    } else {
      code := AsciiMap.Table[k as int];
      if code == 0 {
        mapped := false;
        return;
      }
      if code & AsciiMap.Shift != 0 {
        bits := LeftShift;
        code := code & AsciiMap.UsageMask;
      }
    }
  }

  // ---------------------------------------------------------------------------
  // The keyboard object

  class Keyboard {
    /** `_keyReport.keys`: the six key slots; 0 marks an empty slot. */
    var keys: array<bv8>
    /** `_keyReport.modifiers`. */
    var modifiers: bv8
    /** The write-error flag that `setWriteError` raises. */
    var writeError: bool
    /** `ccHoldBuffer`: the consumer-control bits currently held. */
    var ccHoldBuffer: array<bv8>
    /** The consumer-control constants the firmware is built with. */
    const layout: CC.Layout
    /** Every report handed to the serial transport, oldest first. */
    ghost var sent: seq<Report>

    ghost predicate Valid()
      reads this, keys
    {
      keys.Length == KeySlots && ccHoldBuffer.Length == layout.reportLen &&
      CC.ValidLayout(layout) && keys != ccHoldBuffer && NoDuplicateKeys(keys[..])
    }

    /** The persistent key report as a value. */
    function Current(): KeyReport
      reads this, keys
    {
      KeyReport(modifiers, keys[..])
    }

    /** The keyboard object is a global, so it starts zeroed. */
    constructor (layout: CC.Layout)
      requires CC.ValidLayout(layout)
      ensures Valid() && fresh(keys) && fresh(ccHoldBuffer) && this.layout == layout
      ensures Current() == EmptyReport && ccHoldBuffer[..] == CC.Zeros(layout.reportLen)
      ensures !writeError && sent == []
    {
      this.layout := layout;
      keys := new bv8[KeySlots](_ => 0);
      ccHoldBuffer := new bv8[layout.reportLen](_ => 0);
      modifiers := 0;
      writeError := false;
      sent := [];
      new;
      assert keys[..] == EmptyReport.keys;
    }

    /** `sendReport`: hands the key report to the transport. */
    method SendReport(report: KeyReport)
      modifies this`sent
      ensures sent == old(sent) + [KeyboardReport(report.modifiers, report.keys)]
    {
      if KeyboardInReportLen as nat <= DevDataLen {
        sent := sent + [KeyboardReport(report.modifiers, report.keys)];
      }
    }

    /** The slot part of `press`: stores `code` in the first empty slot unless
        some slot already holds it; fails when no slot is empty. */
    method AddToSlots(code: bv8) returns (ok: bool)
      requires keys.Length == KeySlots
      modifies keys
      ensures (keys[..], ok) == AddUsage(old(keys[..]), code)
    {
      ok := true;
      if code !in keys[..] {
        var i := 0;
        while i < KeySlots
          invariant 0 <= i <= KeySlots
          invariant keys[..] == old(keys[..])
          invariant forall j :: 0 <= j < i ==> keys[j] != 0
        {
          if keys[i] == 0 {
            keys[i] := code;
            assert i == FirstFree(old(keys[..]));
            break;
          }
          i := i + 1;
        }
        if i == KeySlots {
          assert FirstFree(old(keys[..])) == KeySlots;
          ok := false;
        }
      }
    }

    /** The slot part of `release`: empties every slot holding `code`, which
        is not 0, and leaves the others in place. */
    method ClearFromSlots(code: bv8)
      requires keys.Length == KeySlots
      modifies keys
      ensures keys[..] == ClearUsage(old(keys[..]), code)
    {
      for i := 0 to KeySlots
        invariant forall j :: 0 <= j < i ==> keys[j] == ClearUsage(old(keys[..]), code)[j]
        invariant forall j :: i <= j < KeySlots ==> keys[j] == old(keys[j])
      {
        if code != 0 && keys[i] == code {
          keys[i] := 0;
        }
      }
    }

    /** The part of `press` after the key is translated: sets the modifier
        bits, adds the usage to the slots and sends the report, or sets the
        write error and returns 0 when no slot is free. */
    method AddKey(code: bv8, bits: bv8) returns (n: nat)
      requires Valid() && NoDuplicateKeys(AddUsage(keys[..], code).0)
      modifies this`modifiers, this`writeError, this`sent, keys
      ensures Valid()
      ensures var added := AddUsage(old(keys[..]), code);
        var o := Outcome(KeyReport(old(modifiers) | bits, added.0), added.1);
        Current() == o.report && n == (if o.ok then 1 else 0) &&
        writeError == (old(writeError) || !o.ok) && sent == old(sent) + Sent(o)
    {
      modifiers := modifiers | bits;
      var ok := AddToSlots(code);
      if !ok {
        writeError := true;
        return 0;
      }
      SendReport(Current());
      return 1;
    }

    /** `press(k)`: adds the key to the report and sends it; returns 1, or 0
        (with the write error set and nothing sent) when the character has no
        key or no slot is free. */
    method Press(k: bv8) returns (n: nat)
      requires Valid()
      modifies this`modifiers, this`writeError, this`sent, keys
      ensures Valid()
      ensures var o := PressResult(old(Current()), k);
        Current() == o.report && n == (if o.ok then 1 else 0) &&
        writeError == (old(writeError) || !o.ok) && sent == old(sent) + Sent(o)
    {
      ghost var before := Current();
      var code, bits, mapped := TranslateKey(k);
      if !mapped {
        writeError := true;
        return 0;
      }
      PressKeepsNoDuplicates(before, k);
      n := AddKey(code, bits);
    }

    /** `release(k)`: takes the key out of the report and sends it; returns 1,
        or 0 (sending nothing) when the character has no key. */
    method Release(k: bv8) returns (n: nat)
      requires Valid()
      modifies this`modifiers, this`sent, keys
      ensures Valid()
      ensures var o := ReleaseResult(old(Current()), k);
        Current() == o.report && n == (if o.ok then 1 else 0) && sent == old(sent) + Sent(o)
    {
      ghost var before := Current();
      var code, bits, mapped := TranslateKey(k);
      if !mapped {
        return 0;
      }
      modifiers := modifiers & !bits;
      ReleaseKeepsNoDuplicates(before, k);
      ClearFromSlots(code);
      SendReport(Current());
      return 1;
    }

    /** `releaseAll`: empties every slot, clears the modifiers and sends. */
    method ReleaseAll()
      requires Valid()
      modifies this`modifiers, this`sent, keys
      ensures Valid() && Current() == EmptyReport
      ensures sent == old(sent) + [KeyboardReport(0, EmptyReport.keys)]
    {
      keys[0] := 0;
      keys[1] := 0;
      keys[2] := 0;
      keys[3] := 0;
      keys[4] := 0;
      keys[5] := 0;
      modifiers := 0;
      assert keys[..] == EmptyReport.keys;
      SendReport(Current());
    }

    /** `write(c)`: presses and then releases the key, whatever the press
        returned, and returns the press's result. */
    method Write(c: bv8) returns (n: nat)
      requires Valid()
      modifies this`modifiers, this`writeError, this`sent, keys
      ensures Valid()
      ensures var p := PressResult(old(Current()), c);
        var q := ReleaseResult(p.report, c);
        Current() == q.report && n == (if p.ok then 1 else 0) &&
        writeError == (old(writeError) || !p.ok) &&
        sent == old(sent) + Sent(p) + Sent(q)
    {
      var p := Press(c);
      var r := Release(c);
      n := p;
    }

    /** `sendCC(command)`: sends the report the command builds on an all-zero
        buffer; the hold buffer is neither read nor changed. */
    method SendCC(command: bv8)
      requires Valid()
      modifies this`sent
      ensures sent == old(sent) +
        [ConsumerReport(CC.Build(layout, CC.Zeros(layout.reportLen), command))]
    {
      var buf := new bv8[layout.reportLen](_ => 0);
      assert buf[..] == CC.Zeros(layout.reportLen);
      CC.BuildReport(layout, buf, command);
      sent := sent + [ConsumerReport(buf[..])];
    }

    /** `holdCC(command)`: applies the command to the hold buffer in place and
        sends the hold buffer. */
    method HoldCC(command: bv8)
      requires Valid()
      modifies this`sent, ccHoldBuffer
      ensures Valid()
      ensures ccHoldBuffer[..] == CC.Build(layout, old(ccHoldBuffer[..]), command)
      ensures sent == old(sent) + [ConsumerReport(ccHoldBuffer[..])]
    {
      CC.BuildReport(layout, ccHoldBuffer, command);
      sent := sent + [ConsumerReport(ccHoldBuffer[..])];
    }

    /** `releaseCC(command)`: clears from the hold buffer exactly the bits the
        command sets on an all-zero buffer, and sends the hold buffer. */
    method ReleaseCC(command: bv8)
      requires Valid()
      modifies this`sent, ccHoldBuffer
      ensures Valid()
      ensures ccHoldBuffer[..] == CC.ClearBits(old(ccHoldBuffer[..]),
        CC.Build(layout, CC.Zeros(layout.reportLen), command))
      ensures sent == old(sent) + [ConsumerReport(ccHoldBuffer[..])]
    {
      var disable := new bv8[layout.reportLen](_ => 0);
      assert disable[..] == CC.Zeros(layout.reportLen);
      CC.BuildReport(layout, disable, command);
      CC.ClearHeldBits(ccHoldBuffer, disable);
      sent := sent + [ConsumerReport(ccHoldBuffer[..])];
    }
  }
}
