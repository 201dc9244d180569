/**
  The per-scale settings of the campaign script, as flat maps from
  slash-joined setting names to strings, and the file-naming convention
  that ties the simulation stage to the imaging stage.
 */
module ScaleConfig {
  import SiderealTime

  type Settings = map<string, string>

  /** How values become setting strings and back: `ofReal` and `ofInt`
      render floats and integers, `ofTime` renders an instant (seconds
      since the reference instant), and `toReal` reads a float back. */
  datatype Text = Text(
    ofReal: real -> string,
    ofInt: int -> string,
    ofTime: real -> string,
    toReal: string -> real)

  /** Reading back the rendering of the float `x` gives `x`. */
  predicate ReadsBack(text: Text, x: real)
  {
    text.toReal(text.ofReal(x)) == x
  }

  // File names, all pure functions of the scale name.

  function VisFileName(name: string): string { "sim_" + name + ".vis" }

  function MsFileName(name: string): string { "sim_" + name + ".ms" }

  function SkyFileName(name: string): string { "sky_" + name + ".txt" }

  function RootPath(rootPrefix: string, name: string): string { rootPrefix + "_" + name }

  // Setting names of the simulator.

  const MaxSourcesPerChunkKey := "simulator/max_sources_per_chunk"
  const LengthKey := "observation/length"
  const NumTimeStepsKey := "observation/num_time_steps"
  const StartFrequencyKey := "observation/start_frequency_hz"
  const FrequencyIncKey := "observation/frequency_inc_hz"
  const NumChannelsKey := "observation/num_channels"
  const RaKey := "observation/phase_centre_ra_deg"
  const DecKey := "observation/phase_centre_dec_deg"
  const StartTimeKey := "observation/start_time_utc"
  const TelescopeKey := "telescope/input_directory"
  const PolModeKey := "telescope/pol_mode"
  const ChannelBandwidthKey := "interferometer/channel_bandwidth_hz"
  const TimeAverageKey := "interferometer/time_average_sec"
  const MaxTimeSamplesKey := "interferometer/max_time_samples_per_block"
  const MsFileKey := "interferometer/ms_filename"
  const VisFileKey := "interferometer/oskar_vis_filename"

  // Setting names of the imager.

  const SizeKey := "image/size"
  const FovKey := "image/fov_deg"
  const AlgorithmKey := "image/algorithm"
  const UseGpuKey := "image/fft/use_gpu"
  const GridOnGpuKey := "image/fft/grid_on_gpu"
  const InputVisKey := "image/input_vis_data"
  const RootPathKey := "image/root_path"

  /** The one scale whose imager runs its FFT on the CPU. */
  const LargeScale := "large"

  /** The simulator settings every scale shares: sources per processing
      chunk, the frequency plan, the telescope model and polarisation
      mode, channel bandwidth, time averaging and block size. */
  const FixedSimSettings: Settings := map[
    MaxSourcesPerChunkKey := "2000",
    StartFrequencyKey := "140e6",
    FrequencyIncKey := "1e6",
    TelescopeKey := "SKA1-LOW_SKO-0000422_Rev3_38m.tm",
    PolModeKey := "Scalar",
    ChannelBandwidthKey := "100e3",
    TimeAverageKey := "1.0",
    MaxTimeSamplesKey := "4"]

  /** `s` holds every shared simulator setting with its shared value. */
  predicate KeepsShared(s: Settings)
  {
    forall k :: k in FixedSimSettings ==> k in s && s[k] == FixedSimSettings[k]
  }

  /** The values of the shared simulator settings, one by one. */
  lemma FixedSimSettingsValues()
    ensures MaxSourcesPerChunkKey in FixedSimSettings && FixedSimSettings[MaxSourcesPerChunkKey] == "2000"
    ensures StartFrequencyKey in FixedSimSettings && FixedSimSettings[StartFrequencyKey] == "140e6"
    ensures FrequencyIncKey in FixedSimSettings && FixedSimSettings[FrequencyIncKey] == "1e6"
    ensures TelescopeKey in FixedSimSettings && FixedSimSettings[TelescopeKey] == "SKA1-LOW_SKO-0000422_Rev3_38m.tm"
    ensures PolModeKey in FixedSimSettings && FixedSimSettings[PolModeKey] == "Scalar"
    ensures ChannelBandwidthKey in FixedSimSettings && FixedSimSettings[ChannelBandwidthKey] == "100e3"
    ensures TimeAverageKey in FixedSimSettings && FixedSimSettings[TimeAverageKey] == "1.0"
    ensures MaxTimeSamplesKey in FixedSimSettings && FixedSimSettings[MaxTimeSamplesKey] == "4"
  {
  }

  /** The simulator settings that vary from scale to scale. */
  function ScaleSimSettings(name: string, raDeg: real, decDeg: real, lengthSec: real,
                            numTimeSteps: int, numChannels: int, lstHours: real, text: Text): (m: Settings)
    ensures m.Keys == {LengthKey, NumTimeStepsKey, NumChannelsKey, RaKey, DecKey, StartTimeKey, MsFileKey, VisFileKey}
  {
    map[
      LengthKey := text.ofReal(lengthSec),
      NumTimeStepsKey := text.ofInt(numTimeSteps),
      NumChannelsKey := text.ofInt(numChannels),
      RaKey := text.ofReal(raDeg),
      DecKey := text.ofReal(decDeg),
      StartTimeKey := text.ofTime(SiderealTime.StartTime(lstHours, raDeg, lengthSec)),
      MsFileKey := MsFileName(name),
      VisFileKey := VisFileName(name)]
  }

  /** The simulator settings of one scale: the shared settings, the
      scale's own observation parameters, the start time centred on the
      transit of the phase centre, and the two output files named after
      the scale. */
  function SimSettings(name: string, raDeg: real, decDeg: real, lengthSec: real,
                       numTimeSteps: int, numChannels: int, lstHours: real, text: Text): (s: Settings)
    ensures VisFileKey in s && MsFileKey in s && RaKey in s && DecKey in s && StartTimeKey in s
    ensures s[VisFileKey] == VisFileName(name) && s[MsFileKey] == MsFileName(name)
    ensures s[RaKey] == text.ofReal(raDeg) && s[DecKey] == text.ofReal(decDeg)
    ensures s[StartTimeKey] == text.ofTime(SiderealTime.TransitSec(lstHours, raDeg) - lengthSec / 2.0)
    ensures LengthKey in s && s[LengthKey] == text.ofReal(lengthSec)
    ensures NumTimeStepsKey in s && s[NumTimeStepsKey] == text.ofInt(numTimeSteps)
    ensures NumChannelsKey in s && s[NumChannelsKey] == text.ofInt(numChannels)
  {
    FixedSimSettings + ScaleSimSettings(name, raDeg, decDeg, lengthSec, numTimeSteps, numChannels, lstHours, text)
  }

  /** Every scale shares the simulator settings that do not depend on the
      scale: 2000 sources per chunk, 140 MHz start with 1 MHz steps, the
      SKA1-Low telescope model in scalar mode, 100 kHz channels, 1 s
      averaging and 4 time samples per block. */
  lemma SimSettingsShared(name: string, raDeg: real, decDeg: real, lengthSec: real,
                          numTimeSteps: int, numChannels: int, lstHours: real, text: Text)
    ensures var s := SimSettings(name, raDeg, decDeg, lengthSec, numTimeSteps, numChannels, lstHours, text);
            && MaxSourcesPerChunkKey in s && s[MaxSourcesPerChunkKey] == "2000"
            && StartFrequencyKey in s && s[StartFrequencyKey] == "140e6"
            && FrequencyIncKey in s && s[FrequencyIncKey] == "1e6"
            && TelescopeKey in s && s[TelescopeKey] == "SKA1-LOW_SKO-0000422_Rev3_38m.tm"
            && PolModeKey in s && s[PolModeKey] == "Scalar"
            && ChannelBandwidthKey in s && s[ChannelBandwidthKey] == "100e3"
            && TimeAverageKey in s && s[TimeAverageKey] == "1.0"
            && MaxTimeSamplesKey in s && s[MaxTimeSamplesKey] == "4"
    ensures KeepsShared(SimSettings(name, raDeg, decDeg, lengthSec, numTimeSteps, numChannels, lstHours, text))
  {
    var m := ScaleSimSettings(name, raDeg, decDeg, lengthSec, numTimeSteps, numChannels, lstHours, text);
    assert FixedSimSettings.Keys !! m.Keys;
    FixedSimSettingsValues();
  }

  /** The imager settings before the per-scale override: both GPU flags on. */
  function ImageDefaults(name: string, algorithm: string, rootPrefix: string,
                         fovDeg: real, numPixels: int, text: Text): Settings
  {
    map[
      SizeKey := text.ofInt(numPixels),
      FovKey := text.ofReal(fovDeg),
      AlgorithmKey := algorithm,
      UseGpuKey := "true",
      GridOnGpuKey := "true",
      InputVisKey := VisFileName(name),
      RootPathKey := RootPath(rootPrefix, name)
    ]
  }

  /** The imager settings of one scale: the defaults, except that the
      large scale runs its FFT on the CPU. Gridding stays on the GPU for
      every scale and no other setting is touched. */
  function ImageSettings(name: string, algorithm: string, rootPrefix: string,
                         fovDeg: real, numPixels: int, text: Text): (s: Settings)
    ensures s.Keys == ImageDefaults(name, algorithm, rootPrefix, fovDeg, numPixels, text).Keys
    ensures s[UseGpuKey] == "false" <==> name == LargeScale
    ensures s[UseGpuKey] == "true" <==> name != LargeScale
    ensures s[GridOnGpuKey] == "true"
    ensures forall k :: k in s && k != UseGpuKey ==>
              s[k] == ImageDefaults(name, algorithm, rootPrefix, fovDeg, numPixels, text)[k]
    ensures s[InputVisKey] == VisFileName(name) && s[RootPathKey] == RootPath(rootPrefix, name)
  {
    var d := ImageDefaults(name, algorithm, rootPrefix, fovDeg, numPixels, text);
    if name == LargeScale then d[UseGpuKey := "false"] else d
  }

  /** A name placed between a fixed prefix and a fixed suffix can be read back. */
  lemma {:induction false} AffixCancel(p: string, q: string, a: string, b: string)
    requires p + a + q == p + b + q
    ensures a == b
  {
    var x := p + a + q;
    assert |a| == |b|;
    assert a == x[|p|..|p| + |a|];
    assert b == (p + b + q)[|p|..|p| + |b|];
  }

  /** Each naming rule is injective: distinct scales get distinct files. */
  lemma FileNamesInjective(a: string, b: string, rootPrefix: string)
    ensures VisFileName(a) == VisFileName(b) <==> a == b
    ensures MsFileName(a) == MsFileName(b) <==> a == b
    ensures SkyFileName(a) == SkyFileName(b) <==> a == b
    ensures RootPath(rootPrefix, a) == RootPath(rootPrefix, b) <==> a == b
  {
    if VisFileName(a) == VisFileName(b) { AffixCancel("sim_", ".vis", a, b); }
    if MsFileName(a) == MsFileName(b) { AffixCancel("sim_", ".ms", a, b); }
    if SkyFileName(a) == SkyFileName(b) { AffixCancel("sky_", ".txt", a, b); }
    if RootPath(rootPrefix, a) == RootPath(rootPrefix, b) {
      assert RootPath(rootPrefix, a) + "" == RootPath(rootPrefix, b) + "";
      AffixCancel(rootPrefix + "_", "", a, b);
    }
  }

  /** The three kinds of file a simulation writes never share a name,
      whatever the scale names. */
  lemma FileKindsDisjoint(a: string, b: string)
    ensures VisFileName(a) != MsFileName(b)
    ensures VisFileName(a) != SkyFileName(b)
    ensures MsFileName(a) != SkyFileName(b)
  {
    var v, m, s := VisFileName(a), MsFileName(b), SkyFileName(b);
    assert v[|v| - 3] == 'v';
    assert m[|m| - 3] == '.';
    assert v[1] == 'i' && s[1] == 'k';
    assert MsFileName(a)[1] == 'i';
  }

  /** The imager reads the file a simulation wrote exactly when both
      belong to the same scale. */
  lemma ImageReadsSimulationOutput(simName: string, raDeg: real, decDeg: real, lengthSec: real,
                                   numTimeSteps: int, numChannels: int, lstHours: real,
                                   imageName: string, algorithm: string, rootPrefix: string,
                                   fovDeg: real, numPixels: int, text: Text)
    ensures SimSettings(simName, raDeg, decDeg, lengthSec, numTimeSteps, numChannels, lstHours, text)[VisFileKey]
              == ImageSettings(imageName, algorithm, rootPrefix, fovDeg, numPixels, text)[InputVisKey]
            <==> simName == imageName
  {
    FileNamesInjective(simName, imageName, rootPrefix);
  }

  /** The simulator settings record a start time that centres the
      observation on the transit of the recorded phase centre: reading the
      recorded right ascension and length back recovers the start time. */
  lemma SimWindowCentred(name: string, raDeg: real, decDeg: real, lengthSec: real,
                         numTimeSteps: int, numChannels: int, lstHours: real, text: Text)
    requires ReadsBack(text, raDeg) && ReadsBack(text, lengthSec)
    ensures var s := SimSettings(name, raDeg, decDeg, lengthSec, numTimeSteps, numChannels, lstHours, text);
            s[StartTimeKey] == text.ofTime(SiderealTime.StartTime(lstHours, text.toReal(s[RaKey]), text.toReal(s[LengthKey])))
  {
  }
}
