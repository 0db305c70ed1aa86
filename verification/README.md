# PRBS excitation, Ziegler-Nichols tuning and parameter splitting, in Dafny

This project models the three pieces of logic in the control-teaching tools (the DC-motor
and the temperature-control lab) that have exact behaviour:

- **`SignalGenerator.create_prbs`** (module `Prbs`, `prbs.dfy`). This is the pseudo-random
  binary sequence used as open-loop excitation. It builds an 11-cell shift register of +1/-1
  chips seeded with all ones. The feedback taps come from a fixed table keyed on the
  register length, and length 7 uses a four-tap rule. Each chip is held for
  `frequency_divider + 1` samples. The output starts with a warm-up hold at `initial_value`.
  It is truncated to `num_samples`, and its last four samples are clamped to `initial_value`.
  `CreatePrbs` follows the buffer-and-register algorithm over arrays. `Reference` states the
  value of every output index in closed form. The method is proved to return exactly the
  reference, so the generator is deterministic: equal arguments give equal outputs. The shape
  properties are lemmas about the reference.
- **`Controllers.tune_ziegler_nichols` and the `Controllers` constructor** (module
  `Controllers`, `controllers.dfy`). The dead time is corrected by half a sample period. Three
  rule branches (P, PI, PID) then give `Kp`, `Ti` and `Td`. The integral time may be
  infinite. The constructor stores the gains and zeroes the recurrence memory.
- **`TCLabParameters.separate_parameters`** (module `Parameters`, `parameters.dfy`). It splits
  an ordered name-to-value dictionary in two. The values of the listed names go to a list;
  every other entry goes, unchanged, to a dictionary of fixed parameters. `Merge` is its
  inverse.

Errors the Python code raises are modelled as `Failure` results in `Wrappers.Result`, not as
preconditions:

- A register tap outside the 11-cell list, such as register length 11 reading `sbpa[11]`.
- A held chip that runs past the `2 * (num_samples + start_time)` buffer.
- Fewer than four samples to clamp.
- Division by a zero `K * theta_corrected`.
- A control type other than P, PI or PID, which leaves `Kp, Ti, Td` unbound at the `return`.

Negative list indices follow Python. Register lengths -10..0 therefore work, and they read
taps counted from the end of the register.

Some behaviour is kept as the code has it:

- The chip loop starts at `start_time + 1`, so index `start_time` keeps the buffer's zero
  unless the tail clamp covers it.
- The tail clamp also overrides the warm-up hold and the chips.
- The tap table has an entry for register length 11 (motor_dc/tools.py:144-145), yet with
  the loop running length 11 reads `sbpa[11]` from the 11-cell list and raises an IndexError.
- The docstring of `create_prbs` (motor_dc/tools.py:111) counts `num_samples` from the start
  time, but the output is cut to `prbs[:num_samples]` (motor_dc/tools.py:171), so it has exactly `num_samples` entries with the warm-up hold
  included.
- `tune_ziegler_nichols` has no branch for a control type other than P, PI or PID; such a
  type raises only through the unbound locals at the `return` (motor_dc/controllers.py:34), modelled as `UnboundGains`.

## Model

| member | source | states |
|---|---|---|
| Prbs.CreatePrbs | motor_dc/tools.py:101-177 | The generator returns exactly the closed-form `Reference`: the same index error, or the same `num_samples` values index by index |
| Prbs.EmitChips | motor_dc/tools.py:153-168 | The chip loop raises the register-index error exactly when it runs with taps outside the register, and the buffer error exactly when the last held chip does not fit; otherwise every index after `start_time` below `num_samples` holds the chip of its hold window |
| Prbs.ChipStep | motor_dc/tools.py:155-168 | One loop pass writes chip `k` over window `k`, advances the register to its state after `k + 1` shifts, and touches no other buffer index |
| Prbs.Feedback | motor_dc/tools.py:155-157 | A chip computed from a register of +1/-1 cells is itself +1 or -1 |
| Prbs.Shift | motor_dc/tools.py:165-168 | After a shift cell 0 is the new chip, cells 1..length hold the old cells 0..length-1, and cells above length are unchanged |
| Prbs.ShiftRegister | motor_dc/tools.py:165-168 | The in-place top-down copy loop on the register array produces exactly `Shift` |
| Prbs.RegisterAt | motor_dc/tools.py:147-168 | From the all-ones seed, the register keeps eleven cells, each +1 or -1, after any number of shifts |
| Prbs.Chip | motor_dc/tools.py:155-157 | Every chip the register emits is +1 or -1 |
| Prbs.HoldChip | motor_dc/tools.py:159-163 | The hold loop writes the chip level to `frequency_divider + 1` consecutive indices, fails exactly when that window passes the buffer end, and leaves other indices alone |
| Prbs.FillWarmUp | motor_dc/tools.py:148-151 | Indices below `start_time` take `initial_value`; the rest of the buffer stays zero |
| Prbs.ClampTail | motor_dc/tools.py:174-175 | The last four samples (list indices -1..-4) become `initial_value` and all others are unchanged |
| Prbs.ValidLengthRange | motor_dc/tools.py:134-157 | The taps index the 11-cell register exactly for register lengths -10..10, so length 11 raises |
| Prbs.TapsOrdered | motor_dc/tools.py:134-145 | For lengths 1..11 the table tap `k1` lies in `0..k2-1`, where `k2` is the register length |
| Prbs.SucceedsIff | motor_dc/tools.py:147-175 | The generator returns a sequence if and only if the taps are valid whenever the loop runs, the last held chip fits the buffer, and `num_samples >= 4` |
| Prbs.SafeInputsSucceed | motor_dc/tools.py:148-175 | Register length 1..10, `num_samples >= 4` and `num_samples + frequency_divider` below the buffer size guarantee a result |
| Prbs.OutputShape | motor_dc/tools.py:148-175 | The output has `num_samples` entries, indices below `start_time` and the last four are `initial_value`, and index `start_time` is 0 when the tail does not reach it |
| Prbs.BinaryExcursion | motor_dc/tools.py:153-163 | Every index strictly between `start_time` and the clamped tail is `offset + amplitude` or `offset - amplitude` |
| Prbs.ChipHeld | motor_dc/tools.py:159-171 | Chip `k` occupies the `frequency_divider + 1` consecutive indices from `start_time + 1 + k * (frequency_divider + 1)`, except where truncation and the tail cut the window short |
| Prbs.FirstChipLow | motor_dc/tools.py:147-161 | The all-ones seed makes the first chip -1, so index `start_time + 1` is `offset - amplitude` |
| Controllers.TuneZieglerNichols | motor_dc/controllers.py:20-34 | An unknown control type fails with unbound gains and a zero `K * theta_c` fails with a division error; otherwise `Kp * K * theta_c` is `tau`, `0.9 tau` or `1.2 tau`, with `theta_c = theta + Ts/2`; P has infinite `Ti` and zero `Td`; PI has `0.3 Ti = theta_c` and zero `Td`; PID has `Ti = 2 theta_c` and `2 Td = theta_c` |
| Controllers.ZieglerNicholsPositive | motor_dc/controllers.py:21-33 | With `K > 0`, `tau > 0`, `theta >= 0` and `Ts > 0`, every known rule succeeds with `Kp > 0`, a positive or infinite `Ti`, and `Td >= 0` |
| Controllers.ZieglerNicholsRatios | motor_dc/controllers.py:21-33 | The rules share one corrected dead time: PI and PID gains are 0.9 and 1.2 times the P gain, PID `Ti` is 0.6 times PI `Ti`, and PID `Td = Ti/4` |
| Controllers.ZieglerNicholsDefaultIsPI | motor_dc/controllers.py:20 | Without a control type the rule tunes a PI controller |
| Controllers.ZieglerNicholsExampleP | motor_dc/controllers.py:21-25 | K=1, theta=2, tau=10, Ts=1 under P gives Kp=4, infinite Ti, Td=0 |
| Controllers.ZieglerNicholsExamplePI | motor_dc/controllers.py:26-29 | The same plant under PI gives Kp=3.6, Ti=2.5/0.3, Td=0 |
| Controllers.ZieglerNicholsExamplePID | motor_dc/controllers.py:30-33 | The same plant under PID gives Kp=4.8, Ti=5, Td=1.25 |
| Controllers.NewController | motor_dc/controllers.py:4-14 | The constructor stores `Kp`, `Ti`, `Td` and `Ts` unchanged and starts u[k-1], e[k-1] and e[k-2] at zero |
| Controllers.NewControllerDefaults | motor_dc/controllers.py:4 | The constructor defaults are no `Ti`, no `Td` and `Ts = 1.0` |
| Parameters.Separate | tclab/tclab_parameters.py:62-73 | Each entry goes to exactly one output, so the sizes add up; the fixed dictionary holds exactly the unlisted entries, values unchanged, with distinct names and none of them listed |
| Parameters.SeparateRoundTrip | tclab/tclab_parameters.py:66-73 | Merging the two outputs back along the dictionary's name order rebuilds the dictionary, so nothing is lost, duplicated or reordered |
| Parameters.OptParamsFromListedEntries | tclab/tclab_parameters.py:68-70 | The `i`-th optimised value is the value of a listed entry at dictionary position `i` or later |
| Parameters.SeparateDependsOnMembership | tclab/tclab_parameters.py:68-72 | The split depends only on which of the dictionary's names are listed |
| Parameters.SeparateIgnoresListOrder | tclab/tclab_parameters.py:68-70 | Permuting the optimisation list does not change the result |
| Parameters.SeparateIgnoresAbsentNames | tclab/tclab_parameters.py:68-70 | Listed names the dictionary does not hold contribute nothing |
| Parameters.DefaultsAsMap | tclab/tclab_parameters.py:71-72 | As a map, the fixed dictionary is the input map minus every listed name |

## Left out

- Tk dialogs and GUIs (`get_parameters`, `get_tf`, both GUI applications, the entry point):
  widget wiring, message boxes and threads.
- `validate_numeric_input` and `validate_numeric_input_par`: their meaning is Python's
  `float()` grammar, which is a foreign call.
- Hardware and experiment drivers, the plant ODE simulation, and noise: device I/O, sleeps,
  randomness and floating-point integration.
- Sampling-time calculation, margin and stability plots, and plotting: these call the control
  and plotting libraries wholesale.
- Parameter pickling and text data files: persistence.
- `Controllers.calculate`, `tune_cohen_coon`, `tune_iae` and `tune_iaet`: their bodies are
  `pass`, so there is no behaviour to model. The model and transfer-function classes are
  stubs or library wrappers too.
- IEEE floating-point rounding: all levels, gains and times are exact reals. A product
  `K * theta_c` that underflows to zero is not modelled.
- Prbs.CreatePrbs: `frequency_divider`, `num_samples` and `start_time` are natural numbers.
  With a negative `frequency_divider` and a running loop the Python loop never terminates.
  Negative `num_samples` or `start_time` reach Python's negative slicing and indexing of the
  output buffer, which is not modelled.
- Parameters.Separate: the dictionary is modelled as a sequence of pairs with distinct names.
  The input dictionary is assumed to come from the dialog with its names in entry order.
- The controller's `Kp`, `Ti` and `Td` may arrive as strings when a dialog entry is empty or
  not numeric, because the parameter dialog keeps the raw text when `float()` fails. The
  model types `Kp` as a number and `Ti` and `Td` as optional numbers.
