/** Worked examples of the acquisition path: one register block decoded with
    the lot running and with the lot ended, and the live alarms its reading
    raises in the monitor. */
module Scenarios {
  import opened Telemetry
  import opened Config
  import opened Registers
  import Acquisition
  import opened Alarms

  function Zeros(n: nat): (r: seq<u16>)
    ensures |r| == n && forall i :: 0 <= i < n ==> r[i] == 0
  {
    seq(n, _ => 0)
  }

  lemma {:induction false} ZerosRenderNothing(n: nat)
    ensures Rendered(Zeros(n)) == []
  {
    if n > 0 {
      ZerosRenderNothing(n - 1);
      assert Zeros(n)[..n - 1] == Zeros(n - 1);
    }
  }

  /** "LOT" as UTF-16 code units. */
  const LOT: JsString := [0x4C, 0x4F, 0x54]

  /** Standards 12.00 V and 5.00 A, lot "LOT" in registers 2..4, voltage
      channels 10.00, 15.00, 11.00, 12.00, 13.00, 14.00, amperage channels
      5.00, 5.10, 5.05, 4.95, 5.05, 5.00, and `status` in register 40. */
  function Block(status: u16): (regs: seq<u16>)
    ensures |regs| == BLOCK_LENGTH && regs[40] == status
  {
    [1200, 500] + LOT + Zeros(15)
    + [1000, 1500, 1100, 1200, 1300, 1400] + [500, 510, 505, 495, 505, 500]
    + Zeros(8) + [status]
  }

  /** The lot registers of the block render and trim to "LOT". */
  lemma BlockLot(status: u16)
    ensures Trim(Rendered(Block(status)[2..17])) == LOT
  {
    assert Block(status)[2..17] == LOT + Zeros(12);
    LotRendersItself();
    calc {
      Rendered(LOT + Zeros(12));
      { RenderedAppend(LOT, Zeros(12)); }
      Rendered(LOT) + Rendered(Zeros(12));
      { ZerosRenderNothing(12); }
      LOT + [];
    }
    assert LOT + [] == [] + LOT + [];
    TrimExact([], LOT, []);
  }

  /** "LOT" is made of letters, which render as themselves. */
  lemma LotRendersItself()
    ensures Rendered(LOT) == LOT
  {
    assert LOT == [0x4C, 0x4F] + [0x54];
    assert [0x4C, 0x4F] == [0x4C] + [0x4F];
    RenderedAppend([0x4C, 0x4F], [0x54]);
    RenderedAppend([0x4C], [0x4F]);
    RenderOne(0x4C);
    RenderOne(0x4F);
    RenderOne(0x54);
  }

  /** Where the block's standards and channels sit. */
  lemma BlockRegisters(status: u16)
    ensures Block(status)[0] == 1200 && Block(status)[1] == 500
    ensures Block(status)[20..26] == [1000, 1500, 1100, 1200, 1300, 1400]
    ensures Block(status)[26..32] == [500, 510, 505, 495, 505, 500]
  {
    var head: seq<u16> := [1200, 500] + LOT + Zeros(15);
    var volts: seq<u16> := [1000, 1500, 1100, 1200, 1300, 1400];
    var amps: seq<u16> := [500, 510, 505, 495, 505, 500];
    var tail: seq<u16> := Zeros(8) + [status];
    assert Block(status) == head + volts + amps + tail;
    assert |head| == 20;
  }

  /** The reading of a record holding the block's values in hundredths. */
  lemma BlockReading(d: Acquisition.Machine)
    requires d.stdV == 1200 && d.stdA == 500
    requires d.volts == [1000, 1500, 1100, 1200, 1300, 1400]
    requires d.amps == [500, 510, 505, 495, 505, 500]
    ensures var r := Acquisition.ToReading(d);
            && r.stdV == 12.0 && r.stdA == 5.0
            && r.volts == [10.0, 15.0, 11.0, 12.0, 13.0, 14.0]
            && r.amps == [5.0, 5.1, 5.05, 4.95, 5.05, 5.0]
  {
    var r := Acquisition.ToReading(d);
    assert r.volts[0] == 10.0 && r.volts[1] == 15.0 && r.volts[2] == 11.0;
    assert r.volts[3] == 12.0 && r.volts[4] == 13.0 && r.volts[5] == 14.0;
    assert r.amps[0] == 5.0 && r.amps[1] == 5.1 && r.amps[2] == 5.05;
    assert r.amps[3] == 4.95 && r.amps[4] == 5.05 && r.amps[5] == 5.0;
  }

  /** The block's channels and standards, as the reading shows them. */
  lemma BlockValues(m: Acquisition.Machine, status: u16, now: int)
    ensures var r := Acquisition.ToReading(Acquisition.Decode(m, Block(status), now));
            && r.stdV == 12.0 && r.stdA == 5.0
            && r.volts == [10.0, 15.0, 11.0, 12.0, 13.0, 14.0]
            && r.amps == [5.0, 5.1, 5.05, 4.95, 5.05, 5.0]
  {
    BlockRegisters(status);
    Acquisition.DecodeFields(m, Block(status), now);
    BlockReading(Acquisition.Decode(m, Block(status), now));
  }

  /** A running reading with the block's values alarms on voltage channels
      1, 2, 3, 5 and 6 only, and on no amperage channel. */
  lemma BlockAlarms(r: Reading, time: JsString)
    requires r.mode == Run && r.stdV == 12.0 && r.stdA == 5.0
    requires r.volts == [10.0, 15.0, 11.0, 12.0, 13.0, 14.0]
    requires r.amps == [5.0, 5.1, 5.05, 4.95, 5.05, 5.0]
    ensures var alarms := RowEvents(time, r.volts, r.amps, r);
            && (forall i :: 0 <= i < 6 ==>
                  (AlarmEvent(time, Volt, i + 1, r.volts[i], r.stdV) in alarms <==> i != 3))
            && (forall e :: e in alarms ==> e.kind == Volt)
  {
    forall i | 0 <= i < 6
      ensures AlarmEvent(time, Volt, i + 1, r.volts[i], r.stdV) in RowEvents(time, r.volts, r.amps, r) <==> i != 3
    {
      VoltAlarmIff(time, r.volts, r.amps, r, i);
    }
    RowEventsSound(time, r.volts, r.amps, r);
  }

  /** With status 1 the machine runs with lot "LOT", standards 12.00 V and
      5.00 A; voltage channels 1, 2, 3, 5 and 6 alarm, channel 4 (12.00)
      does not, and no amperage channel reaches the overload limit. */
  lemma RunningBlock(m: Acquisition.Machine, now: int, time: JsString)
    ensures var d := Acquisition.Decode(m, Block(1), now);
            var r := Acquisition.ToReading(d);
            var alarms := RowEvents(time, r.volts, r.amps, r);
            && d.mode == Run && d.lot == LOT
            && r.stdV == 12.0 && r.stdA == 5.0
            && r.volts == [10.0, 15.0, 11.0, 12.0, 13.0, 14.0]
            && (forall i :: 0 <= i < 6 ==>
                  (AlarmEvent(time, Volt, i + 1, r.volts[i], r.stdV) in alarms <==> i != 3))
            && (forall e :: e in alarms ==> e.kind == Volt)
  {
    var r := Acquisition.ToReading(Acquisition.Decode(m, Block(1), now));
    BlockLot(1);
    Acquisition.DecodeFields(m, Block(1), now);
    BlockValues(m, 1, now);
    BlockAlarms(r, time);
  }

  /** With status 0 the same block reads "LOT ENDED" and stopped, and the
      monitor raises no alarm although channel 2 reads 15.00 against 12.00. */
  lemma EndedBlock(m: Acquisition.Machine, now: int, time: JsString)
    ensures var d := Acquisition.Decode(m, Block(0), now);
            var r := Acquisition.ToReading(d);
            && d.mode == Stop && d.lot == LOT_ENDED
            && r.volts[1] == 15.0 && OutOfBand(r.volts[1], r.stdV)
            && RowEvents(time, r.volts, r.amps, r) == []
  {
    var r := Acquisition.ToReading(Acquisition.Decode(m, Block(0), now));
    Acquisition.DecodeFields(m, Block(0), now);
    BlockValues(m, 0, now);
    StoppedRaisesNothing(time, r.volts, r.amps, r);
  }
}
