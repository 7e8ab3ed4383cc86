# ES920 wireless configuration wrapper, in Dafny

This project models the wrapper layer of the EASEL ES920 920 MHz transceiver
library (`lib/libeasel_ES920_wrap.c`). Two of its entry points,
`easel_ES920_set_wireless` (lines 106-157) and `easel_ES920_set_only` (lines
204-254), are fixed, ordered chains of single-parameter setter calls into the
driver. Each setter call there is followed by `if(iRet) return -1`, so the
chain stops at the first failure and does no rollback. `set_only` then makes
one unchecked `easel_ES920_save_param` call (line 257). The other four entry
points make no checked call of their own. `easel_ES920_set_wireless_default`
and `easel_ES920_set_wireless_by_structure` pass their arguments on to
`set_wireless`. `easel_ES920_set_load` and `easel_ES920_set_operation` each
make one unit call and test nothing.

The driver underneath is opaque here. Each of its primitives is a call whose
only observable effect is the status it returns. That status comes from an
`Oracle`, a function from a `Call` (setter and argument, or one of the unit
primitives) to a C `int` status. Each entry point is then a pure function of
the oracle and its arguments. It returns an `Outcome`: the calls it made, in
order, and its return code.

Files:

- `es920.dfy` (module `Es920`) holds the driver interface. It has the seventeen
  setters, the call and oracle types, and `Header`, which carries the numeric
  values of the named `EASEL_ES920_*` constants. It also has `Es920Param`, the
  settings structure, and `Field`, which gives the structure field each setter
  consumes.
- `wrap.dfy` (module `Es920Wrap`) holds the six entry points and the generic
  fail-fast runner `Run`. `FailFast` is the reference description of a
  fail-fast outcome. `Schedule(p)` is the reference call sequence: the
  documented parameter order `WirelessOrder`, each setter given `Field(p, s)`.
  The entry points list their calls literally, in source order. Their
  contracts are stated against `Schedule`, so the two writings of the order
  are checked against each other.
- `wrap_lemmas.dfy` (module `Es920WrapLemmas`) holds the lemmas that relate
  entry points to each other and to the reference sequence.

Notes on the source:

- `easel_ES920_set_wireless` takes seventeen parameters, one per setter, as
  its doc comment at lines 63-79 lists them.
- The comments above `easel_ES920_set_wireless_default` disagree with its
  literals. Lines 31 and 34 list other defaults, and lines 45-46 give own
  address 1 and destination 0. The model uses the literals passed at lines
  40-56: own address 0, destination 1, channel 1, retry 3, sleep time 50,
  power 13.
- The status of `easel_ES920_save_param` at line 257 is never read:
  `easel_ES920_set_only` returns 0 whenever all setters succeed.

## Model

| member | source | states |
|---|---|---|
| Es920Wrap.Run | lib/libeasel_ES920_wrap.c:106-157 | The calls made are a prefix of the plan, with no undo and no extra call. The code is 0 exactly when every call succeeds, and then the whole plan was issued. Otherwise the code is -1 for any non-zero status, the last call made is the first one that failed, and every earlier call succeeded. |
| Es920Wrap.SetWireless | lib/libeasel_ES920_wrap.c:102-158 | Its outcome is the fail-fast application of the reference sequence: the setters in the documented order, each given its own argument. |
| Es920Wrap.RunThenSave | lib/libeasel_ES920_wrap.c:204-259 | Returns only 0 or -1. It returns 0 iff every setter succeeds, and then the trace is the full chain followed by exactly one save. On failure it is the fail-fast outcome with no save in it. The save occurs once iff the result is 0. |
| Es920Wrap.ModeArgument | lib/libeasel_ES920_wrap.c:240-242 | In any prefix of a reference sequence, with or without a trailing save, every mode-setter call passes the structure's mode field. |
| Es920Wrap.SetOnly | lib/libeasel_ES920_wrap.c:200-260 | Uses the set_wireless order with the mode forced to configuration. Every mode-setter call it makes passes the configuration value, whatever the arguments. It returns 0 iff all seventeen setters succeed. The save is made exactly once, as the last call, iff the result is 0, and never after a failure. |
| Es920Wrap.SetWirelessDefault | lib/libeasel_ES920_wrap.c:36-58 | Its outcome is the fail-fast application of the reference sequence for the built-in profile `DefaultParam`, whose fields are named one by one. |
| Es920Wrap.SetWirelessByStructure | lib/libeasel_ES920_wrap.c:294-316 | Its outcome is the fail-fast application of the reference sequence for the structure. Each setter receives the field it consumes, so no field is swapped in the positional unpacking. |
| Es920Wrap.SetLoad | lib/libeasel_ES920_wrap.c:268-271 | Makes exactly one load-default call and returns no status. |
| Es920Wrap.SetOperation | lib/libeasel_ES920_wrap.c:279-282 | Makes exactly one operation-mode call and returns no status. |
| Es920WrapLemmas.FailFastUnique | lib/libeasel_ES920_wrap.c:106-157 | Two fail-fast outcomes of the same plan under the same oracle are equal, so the fail-fast description fully determines a chain's calls and code. |
| Es920WrapLemmas.FailFastStopsAt | lib/libeasel_ES920_wrap.c:106-155 | Suppose call k is the first to fail. Then the outcome is exactly calls 0..k with code -1, whatever non-zero status call k returned. |
| Es920WrapLemmas.SetWirelessCallOrder | lib/libeasel_ES920_wrap.c:102-155 | set_wireless makes at most seventeen calls. Call i is setter i of the documented order, given the matching argument unchanged. |
| Es920WrapLemmas.SetWirelessStopsAtFirstFailure | lib/libeasel_ES920_wrap.c:106-155 | Suppose setter k is the first to fail. Then set_wireless makes exactly k + 1 calls, the prefix of the reference sequence, and returns -1. |
| Es920WrapLemmas.SetWirelessSucceedsIff | lib/libeasel_ES920_wrap.c:106-157 | set_wireless returns only 0 or -1. It returns 0 iff every setter of the documented order succeeds with its own argument. |
| Es920WrapLemmas.WirelessOrderIsComplete | lib/libeasel_ES920_wrap.c:102 | Every driver setter appears in the documented order, and none appears twice. |
| Es920WrapLemmas.DefaultProfileCalls | lib/libeasel_ES920_wrap.c:36-58 | set_wireless_default calls a prefix of one literal sequence: end device, 125 kHz, SF7, channel 1, PAN 1, own 0, destination 1, ACK on, retry 3, payload mode, receive-id on, RSSI on, operation mode, 115200 baud, sleep off, sleep time 50, power 13. It returns 0 iff all seventeen calls succeed, and then it made all of them. |
| Es920WrapLemmas.DefaultIsAdapterOnDefaultParam | lib/libeasel_ES920_wrap.c:36-58 | set_wireless_default equals the structure adapter applied to the default profile. |
| Es920WrapLemmas.AdapterIsPositional | lib/libeasel_ES920_wrap.c:294-316 | The adapter-equivalence property is the second clause: the adapter's outcome equals the fail-fast runner on the reference sequence, where each setter receives the field it consumes. The first clause, equality with set_wireless on the unpacked fields, repeats the adapter's body. |
| Es920WrapLemmas.SetOnlyIsConfiguredSetWireless | lib/libeasel_ES920_wrap.c:200-260 | set_only equals set_wireless with the mode replaced by the configuration value, followed by one save exactly when that returned 0. |
| Es920WrapLemmas.FailFastTransfers | lib/libeasel_ES920_wrap.c:106-155 | A fail-fast outcome stays one under any oracle that agrees on the plan's own calls. |
| Es920WrapLemmas.SetOnlyIgnoresSaveStatus | lib/libeasel_ES920_wrap.c:256-259 | Take two oracles that agree on every setter call. set_only gives the same calls and the same result under both, so the save's status never changes the result. |
| Es920WrapLemmas.UnitActionsIgnoreStatus | lib/libeasel_ES920_wrap.c:268-282 | set_load and set_operation make the same single call whatever the device answers. This holds by construction, since neither reads a status. |

## Left out

- The per-parameter setters, `easel_ES920_save_param`, `easel_ES920_load_default` and `easel_ES920_set_mode_operation` are left out. They are serial-port and device I/O declared in `libeasel_ES920.h`, which is not part of this model. Only the statuses they return are modelled, through the oracle.
- The oracle is a fixed function of the call. A real setter's status may depend on the device's history. The sequencing properties hold for every oracle, but the model does not relate two calls' statuses to each other.
- The numeric values of the `EASEL_ES920_*` constants are not visible. They are the fields of the `Header` parameter, and every property holds for every choice of them.
- No range check of channel, power, baud rate and similar fields is modelled. The wrapper passes every argument through unchanged.
- Device-side effects are left out: the partially applied configuration after a failure, and the contents of flash after a save. That state belongs to the hardware.
- Concurrency is left out. The wrapper assumes one caller and has no locking.
- The header's setter prototypes and the fields of `EASEL920PARAM` are assumed to be `int`. If any were narrower or unsigned, C would convert the value silently, and the claim that each setter receives its argument unchanged would not hold.
- C `int` is modelled as a 32-bit `newtype`. The wrapper does no arithmetic, so no wrap-around arises.
