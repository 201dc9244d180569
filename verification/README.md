# GLEAM EoR1 SKA1-Low simulation campaign, modelled in Dafny

The script `run_GLEAM_EoR1_SKA1-Low_Generic_Set1.py` runs a synthetic
observation campaign at three angular scales (`large`, `medium`, `small`).
It orders the GLEAM catalogue by flux and cuts it to each scale's radius
about the pointing (RA 60°, Dec −30°). It builds each scale's simulator
settings, with an observation window centred on the transit of the
pointing, and runs the OSKAR interferometer simulator. It then builds each
scale's imager settings and runs the OSKAR imager on the visibility file the
simulation wrote.

This project models the logic the script owns. The engines it calls are
not modelled.

- `sidereal_time.dfy` (`SiderealTime`): `get_start_time` over real seconds
  since the reference instant 2000-01-01 00:00:00 UTC. The apparent local
  sidereal time at that instant is an input (`lstHours`).
- `scale_config.dfy` (`ScaleConfig`): the settings dictionaries of
  `make_vis_data` and `make_image` as flat maps keyed by slash-joined setting
  names. Also the file-naming convention (`sim_<name>.vis`, `sim_<name>.ms`,
  `sky_<name>.txt`, `<root_prefix>_<name>`) and the `large` override.
  Numeric values become strings through a `Text` record of rendering
  functions. These stand for Python's `str()`, astropy's time value and
  `float()`.
- `sky_model.dfy` (`SkyModel`): catalogue rows, the flux ordering of `main`,
  and `make_sky_model`. The catalogue is an immutable sequence, and the
  filter builds a new sequence from a copy of it. The filter keeps sources
  whose separation from the centre is in `[inner, outer]`, both ends
  included, with `inner = 0.0` as the script passes it. Angular separation
  is an uninterpreted function.
- `campaign.dfy` (`Campaign`): `make_vis_data`, `make_image` and `main`. Each
  engine call is an event that records the settings and sky model handed to
  the engine. A campaign run is the trace of these events. The literal
  arguments of `main`'s six calls are two tables (`Scales`, `Images`), and
  each phase runs over its table in the script's call order.

Modelling notes:

- The script adds the sidereal-hour offset `dt_hours` to the reference
  instant as ordinary hours. The model does the same. "Transit" in the
  contracts means hour angle 24 h under that convention (`HourAngle`).
- `make_sky_model` reads the pointing back with `float()` from the settings
  that `make_vis_data` rendered with `str()`. Showing that the sky model is
  cut about the same pointing the simulator records needs one hypothesis,
  stated per value: reading back the rendering of that value gives the
  value (`ReadsBack(text, x)`). `MakeVisData` requires it of the right
  ascension and declination it is given. The campaign methods require it
  of the two pointing coordinates, 60.0 and -30.0. In Python 3, `float()`
  reads `str()` of a float back exactly, so the hypothesis holds for the
  values the script passes.
- The code disables `image/fft/use_gpu` for the `large` scale
  (line 92-93). It does not disable `image/fft/grid_on_gpu`. The model
  follows the code: gridding stays on the GPU for every scale.
- The script does not validate its inputs. There is no check on the range
  of the right ascension, a negative radius or a zero length. The model adds
  no preconditions for these.

## Model

| member | source | states |
|---|---|---|
| SiderealTime.HoursToTransit | run_GLEAM_EoR1_SKA1-Low_Generic_Set1.py:20 | after `dt_hours` the pointing's hour angle is exactly 24 h: the field transits one day after its meridian crossing at `ra/15 − lst` hours from the reference instant |
| SiderealTime.StartTime | run_GLEAM_EoR1_SKA1-Low_Generic_Set1.py:17-22 | the window's midpoint `start + length/2` is the transit instant; a window of non-negative length contains the transit |
| SiderealTime.MidpointIndependentOfLength | run_GLEAM_EoR1_SKA1-Low_Generic_Set1.py:20-21 | windows of any two lengths on the same field share their midpoint |
| SiderealTime.StartTimeRaShift | run_GLEAM_EoR1_SKA1-Low_Generic_Set1.py:20-21 | 15 degrees more right ascension moves the start exactly 3600 s later |
| SiderealTime.StartTimeLengthShift | run_GLEAM_EoR1_SKA1-Low_Generic_Set1.py:21 | a window longer by d seconds starts d/2 seconds earlier |
| ScaleConfig.SimSettings | run_GLEAM_EoR1_SKA1-Low_Generic_Set1.py:42-69 | the simulator settings name the visibility and measurement-set files after the scale, record the pointing, the length, the number of time steps and the number of channels, and record the start time as the transit minus half the length |
| ScaleConfig.SimSettingsShared | run_GLEAM_EoR1_SKA1-Low_Generic_Set1.py:43-62 | every scale's simulator settings hold the shared values: 2000 sources per chunk, start frequency "140e6" with increment "1e6", telescope model `SKA1-LOW_SKO-0000422_Rev3_38m.tm`, pol mode "Scalar", channel bandwidth "100e3", time average "1.0", 4 time samples per block; together they are the whole shared map (`KeepsShared`) |
| ScaleConfig.SimWindowCentred | run_GLEAM_EoR1_SKA1-Low_Generic_Set1.py:47-69 | the recorded start time is the centred start computed from the recorded right ascension and recorded length |
| ScaleConfig.ImageSettings | run_GLEAM_EoR1_SKA1-Low_Generic_Set1.py:79-93 | `image/fft/use_gpu` is "false" iff the scale is `large` and "true" otherwise; `image/fft/grid_on_gpu` is always "true"; every other setting equals its default; the input is the scale's visibility file |
| ScaleConfig.FileNamesInjective | run_GLEAM_EoR1_SKA1-Low_Generic_Set1.py:63-87 | each naming rule (visibility, measurement set, sky dump, image root) gives equal file names exactly for equal scale names |
| ScaleConfig.FileKindsDisjoint | run_GLEAM_EoR1_SKA1-Low_Generic_Set1.py:63-71 | a visibility file, a measurement set and a sky dump never share a name, whatever the scale names |
| ScaleConfig.ImageReadsSimulationOutput | run_GLEAM_EoR1_SKA1-Low_Generic_Set1.py:64-86 | the imager's input file equals the simulator's output file iff both are built for the same scale |
| SkyModel.FilterByRadius | run_GLEAM_EoR1_SKA1-Low_Generic_Set1.py:25-33 | the filtered sky is a subsequence of the catalogue, in catalogue order, and every kept source is inside the annulus |
| SkyModel.FilterMembership | run_GLEAM_EoR1_SKA1-Low_Generic_Set1.py:32-33 | a source is kept iff it is in the catalogue and its separation from the centre is in [inner, outer] |
| SkyModel.FilterMultiset | run_GLEAM_EoR1_SKA1-Low_Generic_Set1.py:32-33 | every copy of a source inside the annulus is kept and no copy of one outside it |
| SkyModel.FilterMonotone | run_GLEAM_EoR1_SKA1-Low_Generic_Set1.py:25-33 | about the same centre, a smaller outer radius gives a subsequence of the larger radius's result |
| SkyModel.SubsequenceKeepsFluxOrder | run_GLEAM_EoR1_SKA1-Low_Generic_Set1.py:115-117 | leaving sources out of a flux-ordered catalogue keeps it flux-ordered |
| SkyModel.SortByFlux | run_GLEAM_EoR1_SKA1-Low_Generic_Set1.py:113-117 | the base catalogue is a permutation of the rows in non-increasing flux order |
| SkyModel.MakeSkyModel | run_GLEAM_EoR1_SKA1-Low_Generic_Set1.py:25-36 | the copy is cut to the sources within the radius of the phase centre read back from the settings; the logged counts are the input and kept sizes |
| Campaign.MakeVisData | run_GLEAM_EoR1_SKA1-Low_Generic_Set1.py:39-74 | a simulation of the scale with its settings, its sky dump file, and the catalogue cut to the radius about the pointing passed in |
| Campaign.MakeImage | run_GLEAM_EoR1_SKA1-Low_Generic_Set1.py:77-97 | an imaging run of the scale whose settings are exactly the scale's imager settings, so it reads the visibility file named after it |
| Campaign.TwoPhaseTrace | run_GLEAM_EoR1_SKA1-Low_Generic_Set1.py:119-127 | simulations followed by imaging runs of the same scales in the same order: no simulation follows an imaging run, and every imaging input was written by an earlier simulation of that scale |
| Campaign.SimulationOfScale | run_GLEAM_EoR1_SKA1-Low_Generic_Set1.py:39-74 | a simulation built from a scale's settings and its cut of the catalogue carries that scale's length, time steps, channels, centred start time, pointing, files and every shared setting |
| Campaign.SimulateScales | run_GLEAM_EoR1_SKA1-Low_Generic_Set1.py:119-122 | large, medium, small are simulated in that order from the same catalogue about (60, -30), each with its own radius, observation length (14400/3600/900 s), time steps (60/30/30), channels (4/2/1), a start time centred on the pointing's transit, and the shared settings; no two scales write the same visibility file; small's sky is a subsequence of medium's, which is a subsequence of large's; a flux-ordered catalogue gives flux-ordered skies |
| Campaign.ImageScales | run_GLEAM_EoR1_SKA1-Low_Generic_Set1.py:124-127 | large, medium, small are imaged in that order, each with exactly its imager settings for W-projection, its field of view and its image size, and each from the visibility file named after it; the FFT is on the CPU exactly for the `large` run |
| Campaign.PhasesLineUp | run_GLEAM_EoR1_SKA1-Low_Generic_Set1.py:119-127 | in the concatenated trace, position `i` is the simulation of scale row `i` and position `i + 3` the imaging of image row `i`, with their per-row facts |
| Campaign.RunCampaign | run_GLEAM_EoR1_SKA1-Low_Generic_Set1.py:100-127 | the base catalogue is the rows in non-increasing flux order; all simulations come first, each simulating its scale's row of the table (radius, length, time steps, channels, centred start, shared settings) about the same pointing, and get flux-ordered skies; the imaging runs follow in the same scale order, each with exactly its row's imager settings (size, field of view, W-projection, root `img_wproj_<name>`); every imaging input was produced earlier by the same scale; the FFT is on the CPU exactly for `large` |

## Left out

- The apparent sidereal time at the reference instant (astropy `Time.sidereal_time`) is an input, not computed: it needs an Earth-rotation model.
- SiderealTime.HourAngle: sidereal time advances one hour per UTC hour here, while the real rate is about 1.0027379 sidereal hours per hour. "Transit" in the contracts is therefore the script's nominal transit, not the true meridian crossing, which differs by about 0.27% of `dt_hours`.
- Time arithmetic is exact over reals. Floating-point rounding of `dt_hours * 3600.0 - length_sec / 2.0` and astropy's `TimeDelta` are not modelled.
- Python's `str()` of floats and integers, astropy's rendering of `start.value`, and `float()` of setting strings are uninterpreted functions (`Text`). Literal values such as "60.0" are not produced.
- `oskar.SettingsTree` defaults: the maps hold only the settings the script sets, not the engine's other defaults.
- The OSKAR engines (`Interferometer.run`, `Imager.run`, `Sky.filter_by_radius` internals, `Sky.create_copy`, `Sky.append`, `Sky.from_array`) are foreign calls. The filter's inclusive range is the model's reading of the call. Engine failures and their propagation are not modelled: every stage returns its event.
- `sky.save` writes a file; only its file name is recorded.
- FITS reading (`fits.open`) and numpy column stacking are I/O. The campaign takes the stacked rows as input.
- SkyModel.SortByFlux: numpy's `argsort()[::-1]` fixes some order among sources of equal flux. The model fixes another. Only the flux order and the multiset of rows are stated. NaN fluxes do not exist over reals.
- Logging setup and the log messages are left out. `MakeSkyModel` returns the two logged counts.
- The commented-out DFT imaging calls (lines 128-130) are not part of the run.
