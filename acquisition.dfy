/** The acquisition side of server/server.js: the per-machine telemetry store,
    the decoding of one register block into a machine record, and the
    connect / read state machine of `MachineConnection`. */
module Acquisition {
  import opened Telemetry
  import opened Config
  import opened Bounded
  import Registers

  /** One entry of `MACHINES_CONFIG`. */
  datatype MachineConfig = MachineConfig(id: int, name: string, ip: string, port: int, department: string, spec: string)

  /** `globalData[id]`: the configuration spread into the record, then the
      telemetry. Standard and channel values are kept in hundredths (the raw
      register value); the averages are exact means in hundredths. */
  datatype Machine = Machine(
    config: MachineConfig,
    mode: Mode,
    lot: JsString,
    stdV: int,
    stdA: int,
    currentV: real,
    currentA: real,
    volts: seq<int>,
    amps: seq<int>,
    lastUpdate: int)

  /** The record a configured machine starts with. */
  function Initial(c: MachineConfig, now: int): Machine
  {
    Machine(c, Stop, CONNECTING, 0, 0, 0.0, 0.0, [0, 0, 0, 0, 0, 0], [0, 0, 0, 0, 0, 0], now)
  }

  /** The store after the initialisation loop has run over `configs`; a later
      entry with the same id overwrites an earlier one. */
  function InitialStore(configs: seq<MachineConfig>, now: int): map<int, Machine>
  {
    if configs == [] then map[]
    else InitialStore(configs[..|configs| - 1], now)[configs[|configs| - 1].id := Initial(configs[|configs| - 1], now)]
  }

  /** Every configured machine, and no other, starts stopped, "CONNECTING...",
      with zero standards and six zero channels per quantity. */
  lemma {:induction false} InitialStoreShape(configs: seq<MachineConfig>, now: int)
    ensures InitialStore(configs, now).Keys == set c | c in configs :: c.id
    ensures forall id :: id in InitialStore(configs, now) ==>
              var m := InitialStore(configs, now)[id];
              && m.config in configs && m.config.id == id
              && m.mode == Stop && m.lot == CONNECTING
              && m.stdV == 0 && m.stdA == 0 && m.currentV == 0.0 && m.currentA == 0.0
              && m.volts == [0, 0, 0, 0, 0, 0] && m.amps == [0, 0, 0, 0, 0, 0]
              && m.lastUpdate == now
  {
    if configs != [] {
      var init := configs[..|configs| - 1];
      InitialStoreShape(init, now);
      assert configs == init + [configs[|configs| - 1]];
    }
  }

  /** Channel values as numbers, for averaging. */
  function Reals(xs: seq<int>): (r: seq<real>)
    ensures |r| == |xs| && forall i :: 0 <= i < |xs| ==> r[i] == xs[i] as real
  {
    seq(|xs|, i requires 0 <= i < |xs| => xs[i] as real)
  }

  /** A value in hundredths as the decimal number the JSON carries. */
  function Scaled(x: real): real
  {
    x / 100.0
  }

  /** The JSON body of `GET /api/machines/:id/live`. */
  function ToReading(m: Machine): (r: Reading)
    ensures r.id == m.config.id && r.mode == m.mode && r.lot == m.lot
    ensures |r.volts| == |m.volts| && |r.amps| == |m.amps|
    ensures forall i :: 0 <= i < |m.volts| ==> r.volts[i] * 100.0 == m.volts[i] as real
    ensures forall i :: 0 <= i < |m.amps| ==> r.amps[i] * 100.0 == m.amps[i] as real
    ensures r.stdV * 100.0 == m.stdV as real && r.stdA * 100.0 == m.stdA as real
    ensures r.currentV * 100.0 == m.currentV && r.currentA * 100.0 == m.currentA
  {
    Reading(m.config.id, m.config.name, m.config.department, m.config.spec, m.mode, m.lot,
            Scaled(m.stdV as real), Scaled(m.stdA as real),
            Scaled(m.currentV), Scaled(m.currentA),
            seq(|m.volts|, i requires 0 <= i < |m.volts| => Scaled(m.volts[i] as real)),
            seq(|m.amps|, i requires 0 <= i < |m.amps| => Scaled(m.amps[i] as real)))
  }

  /** The record after a successful read of `regs` at time `now`. */
  function Decode(m: Machine, regs: seq<u16>, now: int): Machine
    requires |regs| == BLOCK_LENGTH
  {
    var volts, amps := regs[20..26], regs[26..32];
    Machine(m.config,
            if regs[40] == 1 then Mode.Run else Stop,
            if regs[40] == 0 then LOT_ENDED else Registers.Trim(Registers.Rendered(regs[2..17])),
            regs[0], regs[1],
            Sum(Reals(volts)) / 6.0, Sum(Reals(amps)) / 6.0,
            volts, amps, now)
  }

  /** What a decoded record holds: the run flag, standards, lot and channels
      come from the block, the averages are the means of this same block's
      channels, and the configuration is kept. */
  lemma DecodeFields(m: Machine, regs: seq<u16>, now: int)
    requires |regs| == BLOCK_LENGTH
    ensures var d := Decode(m, regs, now);
            && d.config == m.config
            && (d.mode == Mode.Run <==> regs[40] == 1)
            && (regs[40] == 0 ==> d.lot == LOT_ENDED)
            && (regs[40] != 0 ==> d.lot == Registers.Trim(Registers.Rendered(regs[2..17])))
            && d.stdV == regs[0] && d.stdA == regs[1]
            && d.volts == regs[20..26] && d.amps == regs[26..32]
            && |d.volts| == CHANNELS && |d.amps| == CHANNELS
            && d.currentV == Mean(Reals(d.volts)) && d.currentA == Mean(Reals(d.amps))
            && d.lastUpdate == now
  {
  }

  /** `globalData`: machine id to latest record, written only by the
      connections. `Logged` records what was handed to the database module. */
  class TelemetryStore {
    var data: map<int, Machine>
    ghost var Logged: seq<Machine>
    /** The configured machine ids, fixed at start-up. */
    ghost const Ids: set<int>

    /** One record per configured id, each filed under its own id. */
    ghost predicate Valid()
      reads this
    {
      && data.Keys == Ids
      && forall id :: id in data ==> data[id].config.id == id
    }

    /** Store initialisation: one record per configured machine. */
    constructor (configs: seq<MachineConfig>, now: int)
      ensures data == InitialStore(configs, now) && Logged == []
      ensures Ids == (set c | c in configs :: c.id) && Valid()
    {
      var store: map<int, Machine> := map[];
      for i := 0 to |configs|
        invariant store == InitialStore(configs[..i], now)
      {
        assert configs[..i + 1][..i] == configs[..i];
        store := store[configs[i].id := Initial(configs[i], now)];
      }
      assert configs[..|configs|] == configs;
      InitialStoreShape(configs, now);
      data := store;
      Logged := [];
      Ids := set c | c in configs :: c.id;
    }

    /** The live lookup: "Not found" (404) exactly for an id that was never
        configured, otherwise the record filed under that id, in units. */
    function Live(id: int): (r: Option<Reading>)
      requires Valid()
      reads this
      ensures r.None? <==> id !in Ids
      ensures r.Some? ==> r.value.id == id && r.value == ToReading(data[id])
    {
      if id in data then Some(ToReading(data[id])) else None
    }

    /** The error handlers of `connect` and `readLoop`: the machine shows
        "stop" and nothing else of its record changes. */
    method MarkStopped(id: int)
      requires Valid() && id in Ids
      modifies this
      ensures Valid()
      ensures data == old(data)[id := old(data)[id].(mode := Stop)]
      ensures Logged == old(Logged)
    {
      data := data[id := data[id].(mode := Stop)];
    }

    /** The success path of `readLoop`: decodes the 41 registers read from
        address 2000 into the machine's record, hands a running record to the
        database, and stamps the record with the decode time. */
    method ApplyRead(id: int, regs: seq<u16>, now: int)
      requires Valid() && id in Ids && |regs| == BLOCK_LENGTH
      modifies this
      ensures Valid()
      ensures data == old(data)[id := Decode(old(data)[id], regs, now)]
      ensures Logged == old(Logged) + if regs[40] == 1 then [Decode(old(data)[id], regs, old(data)[id].lastUpdate)] else []
    {
      var m := DecodeBlock(data[id], regs);
      if m.mode == Mode.Run {
        Logged := Logged + [m];
      }
      assert m.(lastUpdate := now) == Decode(old(data)[id], regs, now);
      DecodeFields(old(data)[id], regs, now);
      data := data[id := m.(lastUpdate := now)];
    }
  }

  /** Steps 1 to 5 of the success path of `readLoop`, field by field, on the
      record `m`; the timestamp is left for the caller. */
  method DecodeBlock(m: Machine, regs: seq<u16>) returns (r: Machine)
    requires |regs| == BLOCK_LENGTH
    ensures r == Decode(m, regs, m.lastUpdate)
  {
    var lotStatus := regs[40];
    var mode := Stop;
    if lotStatus == 1 {
      mode := Mode.Run;
    }
    var lot: JsString;
    if lotStatus == 0 {
      lot := LOT_ENDED;
    } else {
      lot := Registers.RegistersToString(regs[2..17]);
    }
    var volts, amps := regs[20..26], regs[26..32];
    var sumV := Sum(Reals(volts));
    var sumA := Sum(Reals(amps));
    r := Machine(m.config, mode, lot, regs[0], regs[1], sumV / 6.0, sumA / 6.0, volts, amps, m.lastUpdate);
  }

  /** Where a connection is: waiting for `connectTCP`, waiting for a read,
      or waiting for the retry or polling timer. */
  datatype Phase = Connecting | AwaitingRead | RetryWait | PollWait

  /** What can happen to a connection: promise outcomes and timers firing. */
  datatype Event = ConnectOk | ConnectErr | RetryElapsed | ReadOk | ReadErr | PollElapsed

  /** The events a phase can receive: each promise settles only while it is pending. */
  predicate Enabled(p: Phase, e: Event)
  {
    match e
    case ConnectOk => p == Connecting
    case ConnectErr => p == Connecting
    case RetryElapsed => p == RetryWait
    case ReadOk => p == AwaitingRead
    case ReadErr => p == AwaitingRead
    case PollElapsed => p == PollWait
  }

  function Step(p: Phase, e: Event): Phase
    requires Enabled(p, e)
  {
    match e
    case ConnectOk => AwaitingRead
    case ConnectErr => RetryWait
    case RetryElapsed => Connecting
    case ReadOk => PollWait
    case ReadErr => PollWait
    case PollElapsed => AwaitingRead
  }

  /** The timer pending in a phase, in milliseconds. */
  function Delay(p: Phase): Option<nat>
  {
    match p
    case RetryWait => Some(RETRY_DELAY)
    case PollWait => Some(POLLING_RATE)
    case _ => None
  }

  /** es can be delivered, one after another, starting in phase p. */
  predicate Feasible(p: Phase, es: seq<Event>)
    decreases |es|
  {
    es == [] || (Enabled(p, es[0]) && Feasible(Step(p, es[0]), es[1..]))
  }

  function Run(p: Phase, es: seq<Event>): Phase
    requires Feasible(p, es)
    decreases |es|
  {
    if es == [] then p else Run(Step(p, es[0]), es[1..])
  }

  /** Once connected, a connection never connects again: read failures lead
      only to further reads, never back to `connect`. */
  lemma {:induction false} NeverReconnects(p: Phase, es: seq<Event>)
    requires p == AwaitingRead || p == PollWait
    requires Feasible(p, es)
    ensures Run(p, es) == AwaitingRead || Run(p, es) == PollWait
    ensures forall i :: 0 <= i < |es| ==> es[i] != ConnectOk && es[i] != ConnectErr && es[i] != RetryElapsed
    decreases |es|
  {
    if es != [] {
      NeverReconnects(Step(p, es[0]), es[1..]);
      assert forall i :: 1 <= i < |es| ==> es[i] == es[1..][i - 1];
    }
  }

  /** Both outcomes of a read schedule the next read after the polling
      interval, and a failed connection schedules a retry after five seconds. */
  lemma Reschedules(e: Event)
    ensures e == ReadOk || e == ReadErr ==> Delay(Step(AwaitingRead, e)) == Some(POLLING_RATE)
    ensures e == ConnectErr ==> Delay(Step(Connecting, e)) == Some(RETRY_DELAY)
    ensures e == ConnectOk ==> Delay(Step(Connecting, e)).None?
  {
  }

  /** `MachineConnection`: one per configured machine, writing only its own
      record of the store. */
  class MachineConnection {
    const config: MachineConfig
    const store: TelemetryStore
    var phase: Phase

    ghost predicate Valid()
      reads this, store
    {
      store.Valid() && config.id in store.Ids
    }

    /** The constructor calls `connect` at once. */
    constructor (config: MachineConfig, store: TelemetryStore)
      requires store.Valid() && config.id in store.Ids
      ensures this.config == config && this.store == store
      ensures phase == Connecting && Valid()
    {
      this.config := config;
      this.store := store;
      phase := Connecting;
    }

    /** `connectTCP` resolved: set the unit id and start reading. */
    method OnConnectOk()
      requires Valid() && phase == Connecting
      modifies this
      ensures Valid() && phase == Step(old(phase), ConnectOk)
    {
      phase := AwaitingRead;
    }

    /** `connectTCP` rejected: the machine shows "stop" and `connect` is retried. */
    method OnConnectErr()
      requires Valid() && phase == Connecting
      modifies this, store
      ensures Valid() && phase == Step(old(phase), ConnectErr)
      ensures store.data == old(store.data)[config.id := old(store.data)[config.id].(mode := Stop)]
      ensures store.Logged == old(store.Logged)
    {
      store.MarkStopped(config.id);
      phase := RetryWait;
    }

    /** The retry timer fired: `connect` again. */
    method OnRetryElapsed()
      requires Valid() && phase == RetryWait
      modifies this
      ensures Valid() && phase == Step(old(phase), RetryElapsed)
    {
      phase := Connecting;
    }

    /** `readHoldingRegisters(2000, 41)` resolved with `regs`. */
    method OnReadOk(regs: seq<u16>, now: int)
      requires Valid() && phase == AwaitingRead && |regs| == BLOCK_LENGTH
      modifies this, store
      ensures Valid() && phase == Step(old(phase), ReadOk)
      ensures store.data == old(store.data)[config.id := Decode(old(store.data)[config.id], regs, now)]
      ensures store.Logged == old(store.Logged)
                + if regs[40] == 1 then [Decode(old(store.data)[config.id], regs, old(store.data)[config.id].lastUpdate)] else []
    {
      store.ApplyRead(config.id, regs, now);
      phase := PollWait;
    }

    /** `readHoldingRegisters` rejected: only `mode` changes. */
    method OnReadErr()
      requires Valid() && phase == AwaitingRead
      modifies this, store
      ensures Valid() && phase == Step(old(phase), ReadErr)
      ensures store.data == old(store.data)[config.id := old(store.data)[config.id].(mode := Stop)]
      ensures store.Logged == old(store.Logged)
    {
      store.MarkStopped(config.id);
      phase := PollWait;
    }

    /** The polling timer fired: `readLoop` again. */
    method OnPollElapsed()
      requires Valid() && phase == PollWait
      modifies this
      ensures Valid() && phase == Step(old(phase), PollElapsed)
    {
      phase := AwaitingRead;
    }
  }
}
