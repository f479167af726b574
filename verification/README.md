# Verified model of the energy meter

A BeagleBone three-phase energy meter samples three voltages and three currents, runs them through a
Conservative Power Theory engine, averages the results, logs raw records and sends one message a second to
a data logger. This project models that path, and the low-level code around it, in Dafny and proves what
each piece is for. `dafny verify dfyconfig.toml` checks everything.

Read in this order:

| files | what they model |
|---|---|
| `MAF.dfy`, `FilterBank.dfy` | the ring-buffer moving average, and banks of them |
| `CPTState.dfy`, `CPT.dfy` | the engine as a state machine on values, and as objects updated in place, proved equal step by step |
| `CPTFormulas.dfy`, `CPTRun.dfy`, `Forgetting.dfy` | what an update computes, what every filter has seen after any run, and how much of it matters |
| `Integrator.dfy`, `Area.dfy`, `SteadyState.dfy`, `Decomposition.dfy` | discrete orthogonality, areas in volt-seconds, periodic steady state, and the algebra of the decomposition |
| `PowerIdentity.dfy`, `PhaseIdentity.dfy`, `PowerFactor.dfy`, `Factors.dfy`, `Bounds.dfy`, `Quantities.dfy` | the main theorems about runs of the engine: identities of powers and factors, how large a report can get, and a report as a function of the samples |
| `Goertzel.dfy`, `Tones.dfy`, `MetrologyCore.dfy` | the harmonic filter against the DFT, what a bin makes of tones, and the windows of a second |
| `AnalogCore.dfy`, `Acquisition.dfy`, `Meter.dfy`, `Decimal.dfy`, `Message.dfy`, `Text.dfy`, `Datalogger.dfy`, `Report.dfy`, `Columns.dfy`, `Program.dfy` | from packets through one second of samples to the message, its parser and the logged line, and the main loop over all of it |
| `Interrupts.dfy`, `AddressMap.dfy` | interrupt-controller registers against mapping tables, and two-way address translation |
| `TrailingSpace.dfy`, `RingDump.dfy`, `Waveform.dfy` | the word-at-a-time trim, the two-half ring dump, the phase-aligned difference |
| `Sums.dfy`, `Arithmetic.dfy`, `Wrappers.dfy` | sums over windows, quotients and remainders, missing values and bytes |

## Conventions

- Floating-point values are reals. `sqrt`, `cos` and `sin` are function parameters of which only
  `r >= 0` with `r * r == x`, and `c * c + s * s == 1`, are used; about tones also the addition theorems and that a
  cosine is one after whole turns only, a turn being twice the constant that the source has for pi. Number
  formatting is a parameter of which only the meaning of "%.2f" is used, that it prints a nearest number of
  hundredths. The conversion of a numeral is a function parameter too, and so are clock readings, device files and
  the contents of memory that other hardware writes.
- Products and quotients of the engine are written with named functions (`Times`, `Square`, `Over`), which
  keeps the solver from multiplying out.
- The engine is modelled for three phases, the only number the program uses. The fields of a phase and of
  the engine are grouped in records (measures, currents, powers), and their filters are kept in a bank in the
  order in which the configuration assigns the buffers.
- `Settled` says that the last `3n - 2` samples of a run have voltages and currents of period `n` and voltages
  that sum to zero over a period: one window for the mean of the integral, one for the filters of what is
  derived from it, one for those of the decomposition, each overlapping the next by one sample. What came
  before is arbitrary.
- Where the code and its comments disagree, the code is modelled: `AnalogCore.c` draws the status word at the
  end of a packet and skips four bytes at its start; `rb_file.c` tests for the second half
  whether the write index is above the half, which it is not either when that half is yet to be filled.

## Results that are not what one might expect

- The power identity is an inequality in general: the floor on a mean power and the minimum of an empty
  collective window only enlarge the right-hand side. `PowerIdentity` gives the exact condition for equality.
- The floor lets a faint signal have a power factor above one (`FaintSignalExceedsOne`); `PhasePowerFactor` and
  `CollectivePowerFactor` say exactly when that cannot happen.
- A region that reaches the top of the bus is translated to the bus but not back (`TopPageIsLost`), since the end of
  a range is computed in 32 bits; `TwoWayExactly` has the condition.
- An event whose channel goes to host 1 reads as unmapped (`HostUnknownExactly`).
- The enable masks are sums, not unions: a repeated event is switched off and its successor on
  (`RepeatedEventCarries`). `MaskIsExact` says exactly when the sum is the union.
- If the device file gives the window the size that the header names, then on the first processor version it ends
  before three of the bases that the driver computes (`Am18xxBasesTranslate`, exact for every size).
- The waits of the ring dump are sound only when begun in time (`GuardsExactly`): the one for a second half ends at
  once when the index is still at its start, and the first chunk after a partial one is not guarded at all
  (`NextFileIsNotGuarded`). When every wait begins in time and no chunk is written a lap late, a file loses nothing
  (`FilesAreConsecutive`), but between two files the rest of a chunk is lost (`LostBetweenFiles`).
- The message buffer has no check of its own. It is large enough for every second of every run over what the
  converter can deliver (`Report.MeansFit`). That needs its resolution as well as its range: over all real samples
  the floor of the mean power lets a power factor exceed any bound (`PowerFactorIsUnbounded`).

## Model

| member | source | states |
|---|---|---|
| `MovingAverage.MAF.Init` | EnergyMeter/CognitiveEnergyMeter/MAF.c:6-26 | A filter starts with an empty history, over a buffer of zeros. |
| `MovingAverage.MAF.Update` | EnergyMeter/CognitiveEnergyMeter/MAF.c:28-68 | After any sequence of updates the accumulator is the exact sum of the last `Length` inputs, the head is their count modulo `Length`, the ring holds them with zeros before the first, and the mean reported is their mean, or the minimum when the threshold is enabled and not exceeded. |
| `MovingAverage.NextHead` | EnergyMeter/CognitiveEnergyMeter/MAF.c:40-47 | Wrapping the head at the end of the buffer keeps it equal to the update count modulo the length. |
| `Filters.FilterBank.constructor` | EnergyMeter/CognitiveEnergyMeter/CPT.c:388-440 | The filters of a bank are configured with their thresholds, have distinct buffers, and have seen nothing. |
| `Filters.FilterBank.Update` | EnergyMeter/CognitiveEnergyMeter/MAF.c:28-68 | Feeding one filter of a bank leaves every other filter, and what it has seen, alone. |
| `CPTState.RmsEvaluate` | EnergyMeter/CognitiveEnergyMeter/CPT.c:40-46 | The root is positive for every input, and its square is the input, or 1/100000 when that is not positive. |
| `CPTState.Rms` | EnergyMeter/CognitiveEnergyMeter/CPT.c:73-81 | The root mean square over a thresholded filter is positive, and its square is the thresholded window mean. |
| `CPTEngine.Phase.Init` | EnergyMeter/CognitiveEnergyMeter/CPT.c:48-63 | A phase starts with nine empty filters, a zero integrator and zero measures. |
| `CPTEngine.CPT.Config` | EnergyMeter/CognitiveEnergyMeter/CPT.c:355-455 | Configuration for three phases reaches the initial state of the machine, with all 35 filter buffers distinct and the sampling period 1/freq. |
| `CPTEngine.CPT.UpdateVoltagesAndCurrents` | EnergyMeter/CognitiveEnergyMeter/CPT.c:65-94 | The first stage, phase by phase in place, is the first transition of the state machine. |
| `CPTEngine.CPT.UpdatePowerAndEnergy` | EnergyMeter/CognitiveEnergyMeter/CPT.c:96-121 | The second stage is the second transition; its division needs only the non-zero divisors that the first stage leaves. |
| `CPTEngine.CPT.UpdateCollectiveValues` | EnergyMeter/CognitiveEnergyMeter/CPT.c:123-152 | The third stage totals the phases of the same update and averages the totals. |
| `CPTEngine.CPT.CurrentDecomposition` | EnergyMeter/CognitiveEnergyMeter/CPT.c:154-263 | The fourth stage splits the currents, per phase and collectively, in the order of the source. |
| `CPTEngine.CPT.PowerDecomposition` | EnergyMeter/CognitiveEnergyMeter/CPT.c:265-287 | The fifth stage forms the powers, per phase and collectively. |
| `CPTEngine.CPT.EvaluateFactors` | EnergyMeter/CognitiveEnergyMeter/CPT.c:289-340 | The sixth stage forms the factors; a phase clips its void factor at one, the collective one is not clipped. |
| `CPTEngine.CPT.Update` | EnergyMeter/CognitiveEnergyMeter/CPT.c:344-352 | One sample takes the whole object graph, filters included, through exactly one step of the state machine on which the theorems below are proved. |
| `CPTFormulas.UpdateMeetsFormulas` | EnergyMeter/CognitiveEnergyMeter/CPT.c:65-340 | From any state whatever, an update computes the formulas of the theory: every divisor is positive, so every guarded assignment runs. |
| `Forgetting.SameRings` | EnergyMeter/CognitiveEnergyMeter/MAF.c:28-47 | Two filters with their heads at the same place have equal rings if and only if they were given the same last inputs, whatever came before; their accumulators are then equal too. |
| `Forgetting.UpdateForgets` | EnergyMeter/CognitiveEnergyMeter/CPT.c:65-340 | The engine forgets everything older than a window, except in its integrators: two states with the same windows and integrators, whatever else they saw or hold, have equal measures, currents and powers after one update, and the same windows again. |
| `Forgetting.RunsForget` | EnergyMeter/CognitiveEnergyMeter/CPT.c:344-352 | So it is over any number of samples: from such states on, two runs over the same samples report the same at every instant. |
| `CPTFormulas.UpdateByPhase` | EnergyMeter/CognitiveEnergyMeter/CPT.c:344-352 | Running the six stages over all phases is the same as measuring, decomposing and rating phase by phase. |
| `CPTRun.RunFills` | EnergyMeter/CognitiveEnergyMeter/CPT.c:344-352 | In every run from configuration each of the 35 filters has seen exactly one input per sample. |
| `CPTRun.RunInputs` | EnergyMeter/CognitiveEnergyMeter/CPT.c:65-263 | Every input that a filter of a phase ever received, as a formula over the sample of that instant. |
| `CPTRun.RunSharedInputs` | EnergyMeter/CognitiveEnergyMeter/CPT.c:123-262 | The same for the eight collective filters. |
| `Integrator.IntegralTelescopes` | EnergyMeter/CognitiveEnergyMeter/CPT.c:84-86 | The trapezoidal integral between two instants is the half step times the two shifted sums of the voltage. |
| `Area.AreaOfStep` | EnergyMeter/CognitiveEnergyMeter/CPT.c:84-86 | In every run the integral starts at zero and grows over each step by the mean of its two voltages times the sampling period, the voltage before the first sample being zero. |
| `Area.AreaOfConstant` | EnergyMeter/CognitiveEnergyMeter/CPT.c:84-86 | Between two equal samples it grows by the voltage times the sampling period. |
| `Area.AreaOfLine` | EnergyMeter/CognitiveEnergyMeter/CPT.c:84-86 | Over any number of samples on a straight line, a + b * time, it grows by exactly the area under the line. |
| `Integrator.IntegralIsPeriodic` | EnergyMeter/CognitiveEnergyMeter/CPT.c:84-86 | Over a periodic voltage that sums to zero over a period the integral is periodic with the same period. |
| `Integrator.EnergyIsAnIntegral` | EnergyMeter/CognitiveEnergyMeter/CPT.c:84-92 | The square of the integral plus that of the half-step voltage is itself a trapezoidal integral, of twice the product of the two. |
| `Integrator.IntegralIsOrthogonal` | EnergyMeter/CognitiveEnergyMeter/CPT.c:84-92 | Discrete orthogonality: over any whole period the sum of voltage times integral is exactly zero. |
| `SteadyState.UnbiasedIsPeriodic` | EnergyMeter/CognitiveEnergyMeter/CPT.c:84-92 | Once settled, the integral less its window mean is periodic, and that mean is constant. |
| `SteadyState.FiltersArePeriodic` | EnergyMeter/CognitiveEnergyMeter/CPT.c:65-121 | Once settled, the inputs of the filters for voltage, current, power and energy are periodic. |
| `SteadyState.UnbiasedIsOrthogonal` | EnergyMeter/CognitiveEnergyMeter/CPT.c:84-92 | In steady state the window sum of voltage times unbiased integral is exactly zero. |
| `SteadyState.RunSignals` | EnergyMeter/CognitiveEnergyMeter/CPT.c:65-121 | What the filters of a phase hold at the end of a run, as signals over the samples. |
| `Decomposition.PhasePythagoras` | EnergyMeter/CognitiveEnergyMeter/CPT.c:160-181 | The mean squares of the three parts of a phase current exceed that of the current by exactly the overshoot of a floored mean power. |
| `Decomposition.TotalPythagoras` | EnergyMeter/CognitiveEnergyMeter/CPT.c:187-262 | The same for the collective parts, balanced and unbalanced. |
| `Decomposition.PowersOfParts` | EnergyMeter/CognitiveEnergyMeter/CPT.c:281-286 | From the mean squares to the powers, with the filter minimum in the place of an absent part. |
| `PowerIdentity.PowerIdentity` | EnergyMeter/CognitiveEnergyMeter/CPT.c:65-287 | In every run whose last 3n-2 samples are periodic with period n and zero-sum voltages, whatever came before, A^2 <= P^2 + Q^2 + N^2 + V^2 for the collective values, with equality if and only if every mean power reaches its floor by itself and no collective part is identically zero over its window. |
| `Factors.CollectiveFactors` | EnergyMeter/CognitiveEnergyMeter/CPT.c:289-340 | In every state of every run the product (1-QF^2)(1-NF^2)(1-VF^2) of the collective factors is at most, or equal to, PF^2 if and only if A^2 is at most, or equal to, P^2 + Q^2 + N^2 + V^2. |
| `Factors.FactorIdentity` | EnergyMeter/CognitiveEnergyMeter/CPT.c:289-340 | In every settled run (1-QF^2)(1-NF^2)(1-VF^2) <= PF^2 for the collective factors, with equality if and only if every mean power reaches its floor by itself and no collective part is identically zero over its window. |
| `PhaseIdentity.CurrentsAreOrthogonal` | EnergyMeter/CognitiveEnergyMeter/CPT.c:160-181 | In such a run the active and reactive, and the void and reactive current of a phase are orthogonal; void and active are orthogonal if and only if the floor of the mean power does not act or the phase has no voltage. |
| `PhaseIdentity.PhaseCurrentIdentity` | EnergyMeter/CognitiveEnergyMeter/CPT.c:160-181 | In such a run the mean square current of a phase is at most the sum of those of its parts, with equality under exactly that condition. |
| `PowerFactor.PhasePowerFactor` | EnergyMeter/CognitiveEnergyMeter/CPT.c:104-110 | In every state of every run a phase has a positive power factor; it is at most one if and only if the product of the thresholded mean squares of voltage and current is at least the square of 1/100000, and a mean power of at least 1/100000 ensures that (Cauchy-Schwarz over the three windows). |
| `PowerFactor.CollectivePowerFactor` | EnergyMeter/CognitiveEnergyMeter/CPT.c:281-295 | In every state of every run the collective power factor is positive, and at most one if and only if the square of the total of the floored mean powers is at most the product of the thresholded collective mean squares; mean powers that all reach their floor by themselves ensure that. |
| `PowerFactor.FaintSignalExceedsOne` | EnergyMeter/CognitiveEnergyMeter/CPT.c:104-110 | The failing input, for every length of the window: after one sample of a millivolt and a milliampere in every phase, each phase and the whole report a power factor above one. |
| `PowerFactor.PowerFactorIsUnbounded` | EnergyMeter/CognitiveEnergyMeter/CPT.c:104-110 | Over all real samples the power factor of a phase has no bound: one sample that is faint enough makes it exceed any. |
| `Bounds.MeansWithin` | EnergyMeter/CognitiveEnergyMeter/CPT.c:65-340 | Over readings of the converter, of at most 300 and not finer than a millionth unless zero, the root mean squares and the mean power of a phase are positive and bounded in every state of every run, however long; the filtered integral needs no bound of its own. |
| `Bounds.AttributeWithin` | EnergyMeter/CognitiveEnergyMeter/CPT.c:65-340 | So is every reported attribute: positive and at most ten million times the square of the window length, floors and clipping included. |
| `Quantities.LastReport` | EnergyMeter/CognitiveEnergyMeter/CPT.c:65-340 | In every state of every run, everything that a phase reports is a function of the samples alone, written out from them: positive roots of thresholded window means of squares, floored window means of products, the decomposition of the current by the window means of all phases, and powers and factors over these. |
| `Quantities.PhaseReports` | EnergyMeter/CognitiveEnergyMeter/CPT.c:65-340 | The same for every state on the way. |
| `Quantities.IntegralIs` | EnergyMeter/CognitiveEnergyMeter/CPT.c:84-86 | The integral is the sum of the areas of the steps of the samples. |
| `GoertzelFilter.Goertzel.Init` | EnergyMeter/CognitiveEnergyMeter/Goertzel.c:14-38 | Initialisation succeeds exactly for a positive number of points, and allocates one coefficient for each. |
| `GoertzelFilter.Goertzel.EvaluateCoefficients` | EnergyMeter/CognitiveEnergyMeter/Goertzel.c:40-62 | Every coefficient is twice the real part of the unit number whose rounded bin it stands for; when the window is one period of the fundamental, coefficient j is twice the cosine of j whole turns over the number of points. |
| `GoertzelFilter.BinsAreExact` | EnergyMeter/CognitiveEnergyMeter/Goertzel.c:49-51 | When points times the fundamental equal the sampling rate, the rounding gives bin j for coefficient j. |
| `GoertzelFilter.Goertzel.Resonate` | EnergyMeter/CognitiveEnergyMeter/Goertzel.c:77-81 | The inner loop over a window computes the two-variable recurrence. |
| `GoertzelFilter.ResonatorIsHorner` | EnergyMeter/CognitiveEnergyMeter/Goertzel.c:77-81 | After every sample the two variables stand for the partial complex sum. |
| `GoertzelFilter.HornerIsTurnedBin` | EnergyMeter/CognitiveEnergyMeter/Goertzel.c:77-83 | That sum is the DFT bin turned on the unit circle. |
| `GoertzelFilter.GoertzelIsDft` | EnergyMeter/CognitiveEnergyMeter/Goertzel.c:73-84 | For every input and every unit number the power expression is the squared modulus of the DFT bin, hence never negative under the root. |
| `GoertzelFilter.Goertzel.CalculateAll` | EnergyMeter/CognitiveEnergyMeter/Goertzel.c:64-93 | Every output, squared and times the number of points, is the power of its DFT bin; nothing beyond half the window is written. A cosine of amplitude a that goes round k times in the window gives a*sqrt(points)/2 at output k and 0 at every other, and a constant shows at output 0 only. |
| `GoertzelFilter.Goertzel.CalculateOdd` | EnergyMeter/CognitiveEnergyMeter/Goertzel.c:95-128 | Output k is the scaled magnitude of DFT bin 2k+1, for the first n odd bins and no more. A cosine of amplitude a that goes round 2k+1 times in the window gives a/2 * 1.414213562 at output k, whatever its phase, and 0 at every other that is not the mirror image of its bin; a constant gives 0. |
| `GoertzelFilter.OddAgreesWithAll` | EnergyMeter/CognitiveEnergyMeter/Goertzel.c:71-122 | On every bin that both passes compute, the squared odd output times the points is the squared full output times the square of the scale constant. |
| `Tones.ToneBinIs` | EnergyMeter/CognitiveEnergyMeter/Goertzel.c:49-84 | Orthogonality: in a window of n samples, DFT bin j of a cosine of amplitude a and any phase that goes round k times, 0 < 2k < n, has power (a/2)^2 n^2 if j is k and 0 otherwise, n - k aside. |
| `Tones.ConstantBinIs` | EnergyMeter/CognitiveEnergyMeter/Goertzel.c:49-84 | A constant c has power c^2 n^2 in bin 0 and 0 in every other. |
| `Tones.PartIsOne` | EnergyMeter/CognitiveEnergyMeter/Goertzel.c:53 | A part of a turn comes back to its start only after whole turns, so that the bins of a window are different numbers. |
| `Metrology.MetrologyCore.Init` | EnergyMeter/CognitiveEnergyMeter/MetrologyCore.c:19-39 | The metrology core owns a filter whose coefficients are ready, or fails for no points. |
| `Metrology.MetrologyCore.WindowsTile` | EnergyMeter/CognitiveEnergyMeter/MetrologyCore.c:53-57 | The windows passed to the filter tile the second: every sample lies in exactly one. |
| `Metrology.MetrologyCore.CalculateHarmonics` | EnergyMeter/CognitiveEnergyMeter/MetrologyCore.c:42-58 | Afterwards every row of every current channel holds the odd harmonics of its own window, and tells apart the tones that the window may hold as the odd pass does. |
| `Metrology.MetrologyCore.Scale` | EnergyMeter/CognitiveEnergyMeter/MetrologyCore.c:61-107 | Every sample of the three voltage channels is scaled once by 160/2.4, and of the three current channels by 50/2.4. |
| `TrailingSpace.SkipTrailingSpace` | EnergyMeter/CognitiveEnergyMeter/system/mysql/m_string.h:266-290 | For every string, every alignment and both word sizes the word-at-a-time trim terminates, reads only bytes of the string, and stops where trimming byte by byte stops. |
| `TrailingSpace.SkipWords` | EnergyMeter/CognitiveEnergyMeter/system/mysql/m_string.h:282-284 | The word loop drops exactly the whole words of spaces above the first word boundary. |
| `TrailingSpace.SpaceWord` | EnergyMeter/CognitiveEnergyMeter/system/mysql/m_string.h:223-230 | A word equals the all-spaces constant if and only if each of its bytes is a space. |
| `TrailingSpace.TrimRemovesTrailingSpaces` | EnergyMeter/CognitiveEnergyMeter/system/mysql/m_string.h:287-289 | The byte loop stops at n if and only if everything from n on is a space and the byte before is not. |
| `Interrupts.Active` | EnergyMeter/CognitiveEnergyMeter/system/am335x/am335x_pru_package/pru_sw/app_loader/interface/prussdrv.c:380-383 | Where the terminator of a mapping table is. |
| `Interrupts.FieldOfOr` | EnergyMeter/CognitiveEnergyMeter/system/am335x/am335x_pru_package/pru_sw/app_loader/interface/__prussdrv.h:259-276 | Or-ing a nibble into a register word changes the four-bit field of its own id and no other of the word. |
| `Interrupts.PackedFromFirst` | EnergyMeter/CognitiveEnergyMeter/system/am335x/am335x_pru_package/pru_sw/app_loader/interface/prussdrv.c:378-402 | The first entry of an id is always contained in its field; the field is just that entry if and only if no later entry of the id has a bit it lacks. |
| `Interrupts.MappedAgrees` | EnergyMeter/CognitiveEnergyMeter/system/am335x/am335x_pru_package/pru_sw/app_loader/interface/prussdrv.c:442-466 | For a mapped id the packed field equals what the search of the table returns, if and only if no later entry of the same id brings a bit that the first one lacks. |
| `Interrupts.DistinctAgrees` | EnergyMeter/CognitiveEnergyMeter/system/am335x/am335x_pru_package/pru_sw/app_loader/interface/prussdrv.c:370-473 | With distinct keys the packed fields and the table always agree. |
| `Interrupts.UnmappedAgrees` | EnergyMeter/CognitiveEnergyMeter/system/am335x/am335x_pru_package/pru_sw/app_loader/interface/prussdrv.c:442-452 | An unmapped id has an empty field and the search returns none. |
| `Interrupts.UnionBits` | EnergyMeter/CognitiveEnergyMeter/system/am335x/am335x_pru_package/pru_sw/app_loader/interface/prussdrv.c:408-422 | The intended mask, by or-ing: bit b is set if and only if its event is listed, repeated or not. |
| `Interrupts.MaskIsExact` | EnergyMeter/CognitiveEnergyMeter/system/am335x/am335x_pru_package/pru_sw/app_loader/interface/prussdrv.c:408-422 | The mask built by 32-bit addition is the intended one if and only if the repetitions in its bank add up to nothing. |
| `Interrupts.MaskBits` | EnergyMeter/CognitiveEnergyMeter/system/am335x/am335x_pru_package/pru_sw/app_loader/interface/prussdrv.c:408-422 | With distinct events, bit b of the mask built by addition is set if and only if its event is in the enabled list. |
| `Interrupts.RepeatedEventCarries` | EnergyMeter/CognitiveEnergyMeter/system/am335x/am335x_pru_package/pru_sw/app_loader/interface/prussdrv.c:411-412 | An event listed twice is not enabled, and its successor is: addition carries. |
| `Interrupts.LoadedBytes` | EnergyMeter/CognitiveEnergyMeter/system/am335x/am335x_pru_package/pru_sw/app_loader/interface/__prussdrv.h:259-276 | Where the fields are: the one of event e is byte 0x400 + e of the controller, the one of channel c byte 0x800 + c, words being little-endian. |
| `Interrupts.BytesAreTable` | EnergyMeter/CognitiveEnergyMeter/system/am335x/am335x_pru_package/pru_sw/app_loader/interface/prussdrv.c:378-402 | With distinct keys those bytes are the table: the value of a listed key, and 0 for any other. |
| `Interrupts.GetterReadsByte` | EnergyMeter/CognitiveEnergyMeter/system/am335x/am335x_pru_package/pru_sw/app_loader/interface/prussdrv.c:442-452 | With distinct events the byte of every event is what the event getter returns, and 0 where it returns none. |
| `Interrupts.TablesAndRegistersAgree` | EnergyMeter/CognitiveEnergyMeter/system/am335x/am335x_pru_package/pru_sw/app_loader/interface/prussdrv.c:370-473 | After initialisation, with distinct events and channels, the channel field of a mapped event is what the event getter returns, and the host field of that channel less two is what the host getter returns. |
| `Interrupts.UnmappedEvent` | EnergyMeter/CognitiveEnergyMeter/system/am335x/am335x_pru_package/pru_sw/app_loader/interface/prussdrv.c:442-473 | An event without an entry has an empty field, and the getters report none. |
| `Interrupts.Prussdrv.SetField` | EnergyMeter/CognitiveEnergyMeter/system/am335x/am335x_pru_package/pru_sw/app_loader/interface/__prussdrv.h:259-276 | Writing a field is one or-assignment to one register word; which byte of the controller that is, Load states. |
| `Interrupts.Prussdrv.Load` | EnergyMeter/CognitiveEnergyMeter/system/am335x/am335x_pru_package/pru_sw/app_loader/interface/prussdrv.c:378-402 | After clearing and packing a table, byte 0x400 + e of the controller is the union of the entries of event e, or byte 0x800 + c that of channel c; no register outside the block has changed. |
| `Interrupts.Prussdrv.BuildMasks` | EnergyMeter/CognitiveEnergyMeter/system/am335x/am335x_pru_package/pru_sw/app_loader/interface/prussdrv.c:408-422 | The two masks, or an error at the first event out of range. |
| `Interrupts.EnabledExactly` | EnergyMeter/CognitiveEnergyMeter/system/am335x/am335x_pru_package/pru_sw/app_loader/interface/prussdrv.c:408-426 | After a successful initialisation with distinct events, the enable bit of an event is set if and only if the event is in the enabled list. |
| `Interrupts.EnabledBytes` | EnergyMeter/CognitiveEnergyMeter/system/am335x/am335x_pru_package/pru_sw/app_loader/interface/prussdrv.c:408-426 | With distinct events, bit e%8 of byte 0x300 + e/8 of the controller, and of byte 0x280 + e/8, is set if and only if event e is listed. |
| `Interrupts.Prussdrv.EnableHosts` | EnergyMeter/CognitiveEnergyMeter/system/am335x/am335x_pru_package/pru_sw/app_loader/interface/prussdrv.c:428-433 | The index register is written with exactly the hosts of the bitmask, in order, then the controller is turned on, and nothing else is written. |
| `Interrupts.Prussdrv.PruintcInit` | EnergyMeter/CognitiveEnergyMeter/system/am335x/am335x_pru_package/pru_sw/app_loader/interface/prussdrv.c:370-440 | On success byte 0x400 + e of the controller is the channel of event e and byte 0x800 + c the host of channel c, as the tables pack them and exactly as they list them when no key is repeated, the polarity and type registers at 0xD00 and 0xD80 are set, the enable registers the masks, and the tables are remembered; the log is what it was, then writes none of which goes to the host index or the global enable register, then those that enable the hosts in turn and the controller last. An event out of range stops it before anything is enabled, with the old tables still remembered. No other register changes. |
| `Interrupts.HostUnknownExactly` | EnergyMeter/CognitiveEnergyMeter/system/am335x/am335x_pru_package/pru_sw/app_loader/interface/prussdrv.c:442-473 | The event getter reports none if and only if the event is unmapped, its channel is unmapped, or its host is 1, which less two is the mark for none. |
| `Interrupts.HostOneReadsAsNone` | EnergyMeter/CognitiveEnergyMeter/system/am335x/am335x_pru_package/pru_sw/app_loader/interface/prussdrv.c:454-473 | The input: an event mapped to a channel that is mapped to host 1 reads as unmapped. |
| `Interrupts.Prussdrv.GetEventToChannelMap` | EnergyMeter/CognitiveEnergyMeter/system/am335x/am335x_pru_package/pru_sw/app_loader/interface/prussdrv.c:442-452 | The search over at most 64 rows returns the first entry of the event, or none. |
| `Interrupts.Prussdrv.GetChannelToHostMap` | EnergyMeter/CognitiveEnergyMeter/system/am335x/am335x_pru_package/pru_sw/app_loader/interface/prussdrv.c:454-466 | The search over at most 10 rows returns the first host of the channel less two, or none. |
| `Interrupts.Prussdrv.GetEventToHostMap` | EnergyMeter/CognitiveEnergyMeter/system/am335x/am335x_pru_package/pru_sw/app_loader/interface/prussdrv.c:468-473 | The two searches chained, with a missing channel passed on. |
| `AddressMap.HoldsExactly` | EnergyMeter/CognitiveEnergyMeter/system/am335x/am335x_pru_package/pru_sw/app_loader/interface/prussdrv.c:605-607 | With its end computed in 32 bits a range test is the intended one, except that a region reaching the top of the address space holds nothing. |
| `AddressMap.ThereAndBack` | EnergyMeter/CognitiveEnergyMeter/system/am335x/am335x_pru_package/pru_sw/app_loader/interface/prussdrv.c:602-652 | Translating a mapped address there and back gives it again if and only if the bus address is found in a region at the same distance between process and bus, or is found in none and the address is 0; for every list of regions. |
| `AddressMap.TwoWay` | EnergyMeter/CognitiveEnergyMeter/system/am335x/am335x_pru_package/pru_sw/app_loader/interface/prussdrv.c:602-652 | With disjoint bus ranges every mapped address whose region ends below the top of the bus survives the way there and back. |
| `AddressMap.TwoWayExactly` | EnergyMeter/CognitiveEnergyMeter/system/am335x/am335x_pru_package/pru_sw/app_loader/interface/prussdrv.c:602-652 | With ranges disjoint on both sides a mapped address survives if and only if its region ends below the top of the bus, or it is the 0 that stands for an address not found. |
| `AddressMap.TopPageIsLost` | EnergyMeter/CognitiveEnergyMeter/system/am335x/am335x_pru_package/pru_sw/app_loader/interface/prussdrv.c:602-652 | The failing input: the one page of a region that ends at the top of the bus is translated to the bus, and from there to 0. |
| `AddressMap.TwoWayFromTheBus` | EnergyMeter/CognitiveEnergyMeter/system/am335x/am335x_pru_package/pru_sw/app_loader/interface/prussdrv.c:602-652 | And the other way round, with the same exact condition on the other side. |
| `AddressMap.TranslationIsInjective` | EnergyMeter/CognitiveEnergyMeter/system/am335x/am335x_pru_package/pru_sw/app_loader/interface/prussdrv.c:602-626 | With disjoint bus ranges distinct mapped addresses stay distinct on the bus, wherever the regions end. |
| `AddressMap.SubBaseTranslates` | EnergyMeter/CognitiveEnergyMeter/system/am335x/am335x_pru_package/pru_sw/app_loader/interface/prussdrv.c:145-192 | A part inside the mapped window translates to its own bus base and back; a part outside is not found in the window from either side. |
| `AddressMap.Am33xxBasesTranslate` | EnergyMeter/CognitiveEnergyMeter/system/am335x/am335x_pru_package/pru_sw/app_loader/interface/__prussdrv.h:79-94 | On the second version, for a window of any size, a part translates to its own bus base and back if and only if the window reaches it; one of the size in the header reaches all sixteen. |
| `AddressMap.Am18xxBasesTranslate` | EnergyMeter/CognitiveEnergyMeter/system/am335x/am335x_pru_package/pru_sw/app_loader/interface/__prussdrv.h:98-106 | On the first version likewise, but one of the size in the header reaches neither the second debug block nor the two program memories, and reaches all others. |
| `AddressMap.MemoryMap.Init` | EnergyMeter/CognitiveEnergyMeter/system/am335x/am335x_pru_package/pru_sw/app_loader/interface/prussdrv.c:245-250 | The driver starts with every base zero. |
| `AddressMap.MemoryMap.MapWindow` | EnergyMeter/CognitiveEnergyMeter/system/am335x/am335x_pru_package/pru_sw/app_loader/interface/prussdrv.c:98-192 | Mapping the window recognises the first version exactly by the word 0x4E825900 at 0x4000 from its start, else the second exactly by 0x4E82A900 at 0x20000, which are the places of the interrupt controller among the bases that are then selected, and computes the address of every part that the version has. |
| `AddressMap.MemoryMap.MemmapInit` | EnergyMeter/CognitiveEnergyMeter/system/am335x/am335x_pru_package/pru_sw/app_loader/interface/prussdrv.c:66-243 | The mapping goes through the descriptor of the first open host interrupt, unless one was chosen before, and fails with nothing changed when none is open; otherwise the window is mapped, then the external memory, and each missing device file leaves exactly the later steps undone. |
| `AddressMap.MemoryMap.GetPhysAddr` | EnergyMeter/CognitiveEnergyMeter/system/am335x/am335x_pru_package/pru_sw/app_loader/interface/prussdrv.c:602-626 | The chain of range tests is the translation over the three regions. |
| `AddressMap.MemoryMap.GetVirtAddr` | EnergyMeter/CognitiveEnergyMeter/system/am335x/am335x_pru_package/pru_sw/app_loader/interface/prussdrv.c:628-652 | The reverse chain is the same translation over the mirrored regions. |
| `Text.SplitOfJoin` | EnergyMeter/datalogger/datalogger.py:144-148 | Splitting undoes joining, for parts without the separator. |
| `Text.JoinOfSplit` | EnergyMeter/datalogger/datalogger.py:144-148 | Joining undoes splitting, for every text. |
| `Text.SplitIsFree` | EnergyMeter/datalogger/datalogger.py:144-148 | No part of a split text has the separator in it. |
| `Message.MessageFits` | EnergyMeter/CognitiveEnergyMeter/main.cpp:333-359 | The message fits its 1000-character buffer if and only if its 33 values take up at most 744 characters. |
| `Message.Print` | EnergyMeter/CognitiveEnergyMeter/main.cpp:349-354 | Printing appends a text and a zero and keeps what is before it. |
| `Message.BuildMessage` | EnergyMeter/CognitiveEnergyMeter/main.cpp:349-359 | The moving offset builds the address and the 33 labelled values in order, every write in bounds, and the last separator becomes the terminating zero. |
| `Datalogger.ProcessInput` | EnergyMeter/datalogger/datalogger.py:139-159 | The loop accepts or rejects a message as a whole and collects the values. |
| `Datalogger.AcceptsExactly` | EnergyMeter/datalogger/datalogger.py:139-159 | A message is accepted if and only if it starts with a dollar sign and every argument has exactly one colon and, for a board label, a numeral. |
| `Datalogger.BoardOf` | EnergyMeter/datalogger/datalogger.py:149-154 | The number after "bbb" is the board, and the one after "esp" is counted from three on. |
| `Datalogger.LabelsDistinct` | EnergyMeter/CognitiveEnergyMeter/main.cpp:335-347 | The 33 labels are pairwise distinct. |
| `Datalogger.LabelsAreValues` | EnergyMeter/datalogger/datalogger.py:149-154 | No label is taken for a board label or for the time. |
| `Datalogger.RoundTrip` | EnergyMeter/datalogger/datalogger.py:139-159 | For all values without a comma or colon and every permutation of the phases, parsing the printed message gives board 1 and a dictionary of exactly the time and the 33 labels, each with its own value. |
| `Datalogger.WriteRow` | EnergyMeter/datalogger/datalogger.py:110-114 | A row is the values of the columns between commas, or an error when a column is missing. |
| `Datalogger.ClientThread.Handle` | EnergyMeter/datalogger/datalogger.py:84-115 | One reply appends one line; the first one starts the file afresh with the header. |
| `Datalogger.RowOfMessage` | EnergyMeter/datalogger/cmeter_params_tri.txt:1 | Every value is written in the column of its phase and attribute, whatever order the phases were sent in. |
| `Datalogger.MeterLog` | EnergyMeter/datalogger/datalogger.py:79-115 | Over every session, the meter's file is the header and one line per message, no other file changes, and each line splits back into the cells of its message. |
| `Datalogger.MeterColumnsSplit` | EnergyMeter/datalogger/datalogger.py:21-28 | The header line splits into the 34 columns it was written from. |
| `Datalogger.ForMeterExactly` | EnergyMeter/datalogger/cmeter_params_tri.txt:1 | A header line has the columns of the messages if and only if it is the shipped one. |
| `Meter.WrittenOnce` | EnergyMeter/CognitiveEnergyMeter/main.cpp:315-331 | In a second every slot of the record buffer that is not a dummy is written exactly once, and no other is. |
| `Meter.Meter.constructor` | EnergyMeter/CognitiveEnergyMeter/main.cpp:153-172 | The meter starts with a configured engine and 33 empty filters of length 60. |
| `Meter.Meter.UpdateMeanValues` | EnergyMeter/CognitiveEnergyMeter/main.cpp:297-313 | One reading of every attribute of every phase goes to its own filter: of each phase in the order V_rms, I_rms, A, P, Q, the root mean squares of the balanced active, balanced reactive and void current, PF, QF and VF. |
| `Meter.Meter.UpdateRawValues` | EnergyMeter/CognitiveEnergyMeter/main.cpp:315-331 | One record is written: twelve slots for each phase, the same eleven attributes in the same order and one that is left; the rest of the buffer is kept. |
| `Meter.RecordsListed` | EnergyMeter/CognitiveEnergyMeter/main.cpp:227-331 | After a second, record r holds what each phase reports after sample 384(r+1), attribute by attribute. |
| `Meter.Meter.CountCycle` | EnergyMeter/CognitiveEnergyMeter/main.cpp:221-225 | The cycle counter restarts at every 256th sample, and only then are readings taken. |
| `Meter.Meter.CountRecord` | EnergyMeter/CognitiveEnergyMeter/main.cpp:227-232 | The record counter restarts at every 384th sample, and only then is a record written and the offset moved. |
| `Meter.Meter.Second` | EnergyMeter/CognitiveEnergyMeter/main.cpp:211-233 | Over one second the engine runs over all 15360 samples, the filters get exactly the 60 readings at the ends of the cycles, record r holds the values after sample 384(r+1), and both counters end at zero. |
| `Meter.FollowsJoin` | EnergyMeter/CognitiveEnergyMeter/main.cpp:197-251 | The states of one second after another are the states of one longer run. |
| `Meter.FollowsIsRun` | EnergyMeter/CognitiveEnergyMeter/main.cpp:211-219 | From configuration on, those states are a run in the sense of the power identity. |
| `Meter.Meter.MeansOfSecond` | EnergyMeter/CognitiveEnergyMeter/main.cpp:297-313 | After a second, whatever came before it, every filter reports the mean of exactly this second's 60 readings, and its ring head is back where it was. |
| `Meter.Meter.Send` | EnergyMeter/CognitiveEnergyMeter/main.cpp:333-359 | The message carries the formatted mean of every filter in order. |
| `Report.ReportedMeans` | EnergyMeter/CognitiveEnergyMeter/main.cpp:297-354 | After a second, the formatted reports of the filters are the texts of the means of that second, of every attribute of every phase. |
| `Decimal.PrintedLength` | EnergyMeter/CognitiveEnergyMeter/main.cpp:335-347 | A mean up to the power twelve of ten, printed with two decimals, takes at most sixteen characters, whichever nearest hundredth the library rounds to. |
| `Decimal.ReadsBack` | EnergyMeter/CognitiveEnergyMeter/main.cpp:335-347 | What is printed, read back, differs from the number by at most half a hundredth. |
| `Decimal.TwoDecimalsPrints` | EnergyMeter/CognitiveEnergyMeter/main.cpp:335-347 | Rounding half up is such a format. |
| `Report.MeanInRange` | EnergyMeter/CognitiveEnergyMeter/main.cpp:297-313 | In every second that the meter can reach from configuration over readings of the converter, every reported mean is at most the power twelve of ten. |
| `Report.MeansFit` | EnergyMeter/CognitiveEnergyMeter/main.cpp:333-359 | Printed with two decimals, such means always fit the message buffer, and none has a separator in it. |
| `Report.LoggedReadsBack` | EnergyMeter/CognitiveEnergyMeter/main.cpp:297-359 | The number in a cell of the log is the mean of its attribute of its phase over the second, to within half a hundredth. |
| `Report.RowIsLogged` | EnergyMeter/datalogger/cmeter_params_tri.txt:1 | Whatever order the phases are sent in, the line has those texts in the columns of their own phase and attribute. |
| `Columns.HeaderIs` | EnergyMeter/datalogger/cmeter_params_tri.txt:1 | The columns of the messages are the 34 of the shipped header, one by one. |
| `Columns.AttributeIs` | EnergyMeter/CognitiveEnergyMeter/main.cpp:297-347 | What the meter reads for an attribute is the quantity that its printed name stands for, as a function of the samples. |
| `Columns.LoggedIsShown` | EnergyMeter/CognitiveEnergyMeter/main.cpp:197-359 | In a logged line the cell under each header name is the text of the mean, over the sixty cycle ends of that second, of what the name says of the phase of its last letter: V_rms_A is the root of the thresholded mean square voltage of phase A over the last window, and so on for all 33. |
| `Columns.RecordShows` | EnergyMeter/CognitiveEnergyMeter/main.cpp:227-331 | The slots of a raw record, by the quantities that the samples up to its instant make. |
| `Report.Station.LogSecond` | EnergyMeter/CognitiveEnergyMeter/main.cpp:197-359 | End to end, by running both sides after any number of seconds: sampling a second of readings, printing, parsing and writing never overrun the buffer and add one line to the log, with the mean of each attribute of each phase over that second, to two decimals, in its own column. |
| `Report.Station.LogSeconds` | EnergyMeter/CognitiveEnergyMeter/main.cpp:197-359 | Second after second from configuration: the engine goes through one run over all the samples, and the file is the header and one line for each second, in order, line i with the means of second i of that run. |
| `AnalogCore.DecodeExtendsSign` | EnergyMeter/CognitiveEnergyMeter/AnalogCore.c:166-174 | The two 32-bit shifts extend the sign of a 24-bit big-endian value. |
| `AnalogCore.DecodeOfEncode` | EnergyMeter/CognitiveEnergyMeter/AnalogCore.c:166-174 | Decoding inverts encoding on all of [-2^23, 2^23). |
| `AnalogCore.EncodeOfDecode` | EnergyMeter/CognitiveEnergyMeter/AnalogCore.c:166-174 | Encoding inverts decoding on all triples of bytes. |
| `AnalogCore.ByteHasOneOwner` | EnergyMeter/CognitiveEnergyMeter/AnalogCore.c:153-186 | Every byte that a value is read from belongs to that channel and sample and to no other, and is no status byte. |
| `AnalogCore.ByteIsUsed` | EnergyMeter/CognitiveEnergyMeter/AnalogCore.c:153-186 | Every byte that is not of a status word is read for some value. |
| `AnalogCore.CarriedValue` | EnergyMeter/CognitiveEnergyMeter/AnalogCore.c:166-174 | Three bytes of the buffer that are a 24-bit number in two's complement, the most significant first, are read as that number times 4/8388607. |
| `AnalogCore.AlwaysCarries` | EnergyMeter/CognitiveEnergyMeter/AnalogCore.c:166-174 | Whatever the three bytes are, they are such a number. |
| `AnalogCore.AnalogCore.ConvertRawValues` | EnergyMeter/CognitiveEnergyMeter/AnalogCore.c:133-187 | Cell (k, s) holds the number that bytes 100(s/4) + 4 + 24(s%4) + 3k and the two behind it carry, most significant first, times 4/8388607; the cells are written once each, in order. |
| `AnalogCore.AnalogCore.GetSamples` | EnergyMeter/CognitiveEnergyMeter/AnalogCore.c:104-130 | The calls since set-up take the two halves of the shared memory in turn. |
| `AnalogCore.AnalogCore.Setup` | EnergyMeter/CognitiveEnergyMeter/AnalogCore.c:88-102 | Set-up restarts the alternation with the first half. |
| `Acquisition.DecodedAreReadings` | EnergyMeter/CognitiveEnergyMeter/AnalogCore.c:166-180 | Whatever bytes the packets hold, every scaled sample is in the range of the converter, and zero or at least its resolution. |
| `Acquisition.Front.Acquire` | EnergyMeter/CognitiveEnergyMeter/main.cpp:146-219 | Taking the packets, decoding them into the wired channels in place and scaling those makes sample s of the numbers that the packets carry for it: channels 2, 1 and 0 are the voltages of phases A, B and C, at 4/8388607 * 160/2.4 volts, and channels 3, 6 and 7 the currents, at 4/8388607 * 50/2.4 amperes. |
| `Program.Start` | EnergyMeter/CognitiveEnergyMeter/main.cpp:94-172 | Set-up reaches a state from which the main loop can run. |
| `Program.Program.Run` | EnergyMeter/CognitiveEnergyMeter/main.cpp:197-251 | The whole program, for any number of seconds and whatever bytes the packets hold: the halves of the memory are taken in turn, the engine goes through one run over the decoded samples, every message fits its buffer and is accepted, and the log is the header and one line for each second, each cell the mean of what its header names. |
| `Program.AllDecodedAreWired` | EnergyMeter/CognitiveEnergyMeter/main.cpp:146-219 | Every sample of that run is made of the numbers in the packets of its own second. |
| `RingDump.Sizing` | testes-c/rb_file.c:35-41 | The half is the largest whole number of samples that is no longer than a file and of which two fit the memory, and it is positive if and only if the memory has at least 12 bytes. |
| `RingDump.WriteFile` | testes-c/rb_file.c:61-84 | One file gets exactly its length of values in whole samples, from the halves in turn: every chunk a whole half except the last, which takes the rest of the file, and each behind exactly the test of the write index that the code makes for it; the loop terminates. |
| `RingDump.GuardsExactly` | testes-c/rb_file.c:64-78 | A wait guards its chunk, that is, lets it be written only when it is filled, if and only if the wait begins in time: once its lap of the ring has begun and, for a whole second half, once the index has passed its start. |
| `RingDump.NextFileIsNotGuarded` | testes-c/rb_file.c:64-78 | After a partial chunk the next file is not guarded: the index that ends the wait for the partial chunk also ends the wait for the whole chunk behind it. |
| `RingDump.DumpFiles` | testes-c/rb_file.c:57-87 | The alternation of the halves goes on from file to file. |
| `RingDump.Dump` | testes-c/rb_file.c:34-87 | The same for the sizes of the program, for every memory with a positive half. |
| `RingDump.ValueIsIntended` | testes-c/rb_file.c:62-84 | A value of a file is the next of the stream whenever its chunk is written after the ring was filled beyond that value and at most a lap later, whatever the rest of the chunk holds. |
| `RingDump.ValueIsIntendedExactly` | testes-c/rb_file.c:62-84 | And when the values of the stream all differ, only then. |
| `RingDump.FilesAreConsecutive` | testes-c/rb_file.c:57-84 | When every wait begins in time, in the sense of GuardsExactly, and no chunk is written more than a lap late, every value of every file is the next of the stream, in the partial last chunk too. |
| `RingDump.IntactExactly` | testes-c/rb_file.c:62-84 | A value of a chunk is the one intended if and only if the ring was filled beyond it and not yet by a whole lap more. |
| `RingDump.LostBetweenFiles` | testes-c/rb_file.c:64-73 | Between two files exactly the unused rest of the last chunk is lost. |
| `Waveform.CrossingMeans` | EnergyMeter/CognitiveEnergyMeter/Waveform.c:37-65 | What a found crossing means: negative samples before its start, positive ones after it, a non-positive one at it unless the window ends first. |
| `Waveform.FindZero` | EnergyMeter/CognitiveEnergyMeter/Waveform.c:37-65 | The scan never looks beyond the window and finds the first non-positive sample at or after the first non-negative one, or the last of the window. |
| `Waveform.ShiftedCrossing` | EnergyMeter/CognitiveEnergyMeter/Waveform.c:37-65 | A record that starts d samples earlier in the same negative half-wave crosses d samples later. |
| `Waveform.LongEnough` | EnergyMeter/CognitiveEnergyMeter/Waveform.c:77-104 | A record with 512 samples more than the difference reaches, in both modes, whatever it holds. |
| `Waveform.StartIs` | EnergyMeter/CognitiveEnergyMeter/Waveform.c:77-104 | In the mode that starts late the last sample is as far before the end of the record as the crossing is before the end of its window; in the other the difference starts at the crossing. |
| `Waveform.WaveformDiff` | EnergyMeter/CognitiveEnergyMeter/Waveform.c:68-111 | The output is the difference of the two records from their own crossings on, with the voltage of the record picked, from the same place on; nothing else of the output is written. |
| `Waveform.CopyWaveform` | EnergyMeter/CognitiveEnergyMeter/Waveform.c:113-148 | The two copies join into one seamless stretch of 512 samples around the offset. |

## Left out

- Rounding, overflow and not-a-number of floating-point values; the truncation to single precision of raw records and samples.
- Null pointers, failed allocations and the configuration for fewer than three phases.
- The per-phase unbalanced values Iua_rms, Iur_rms, Na, Nr, N and NF have no identity: the source keeps instantaneous squares there, without averaging or root. They are modelled, and `UpdateMeetsFormulas` states them.
- PruintcInit: tables are in the documented ranges (events below 64, channels and hosts below 10) and terminated; the source trusts its caller for both.
- Am18xxBasesTranslate: for a window mapped below the top of the process's address space, as mappings of a process are; `Am33xxBasesTranslate` and `SubBaseTranslates` likewise.
- Dump: for memories of at least 12 bytes; with less the half is empty and the source's loop does not advance.
- BuildMessage: for values that fit the buffer, which the source does not check; `MessageFits` says when they do, and `MeansFit` that those of the program always do.
- WaveformDiff: the output arrays are distinct from the inputs and from each other; the diagnostic prints are left out.
- The lost-packet warning of the main loop: the counter it compares with is never updated.
- Set-up and shut-down of the process: scheduling, locked memory, sockets, device files, mapping calls, the PRU firmware and waiting for its events.
- Raw records are written to a file unchanged; the file call is left out.
- Receiving: fragmentation of the stream, the 500-byte limit, decoding and stripping of line ends, the reply to other boards, and threads.
- LogSeconds: the report is sent and received within its second, and no message is lost.
- The harmonics of the voltage channels and the offset removal, which are commented out in the source.
- The other functions of the driver (memory writes, program loading, single events), the rest of the MySQL headers, and the conversion scripts: no state or arithmetic that would add a harder property.
