/**
  The two stages of one scale and the campaign that runs them.

  The simulation and imaging engines are not modelled: a stage is
  represented by the event it hands to its engine, which records the
  settings it passes (and so the files it writes or reads) and, for a
  simulation, the sky model it simulates. A campaign run is the sequence
  of these events in call order.
 */
module Campaign {
  import SiderealTime
  import opened ScaleConfig
  import opened SkyModel

  /** What the campaign takes from outside: the apparent local sidereal
      time at the reference instant, value rendering, and the engine's
      angular separation. */
  datatype Env = Env(lstHours: real, text: Text, sep: Separation)

  /** One engine call: a simulation with its settings, sky model and the
      file the sky model is saved to, or an imaging run with its settings. */
  datatype Event =
    | Simulated(name: string, settings: Settings, sky: seq<Source>, skyFile: string)
    | Imaged(name: string, settings: Settings)

  /** Simulates one scale: builds its settings, cuts the catalogue to the
      scale's radius about the pointing, and hands both to the engine. */
  method MakeVisData(name: string, sky0: seq<Source>, raDeg: real, decDeg: real, maxRadiusDeg: real,
                     lengthSec: real, numTimeSteps: int, numChannels: int, env: Env)
    returns (e: Event)
    requires ReadsBack(env.text, raDeg) && ReadsBack(env.text, decDeg)
    ensures e.Simulated? && e.name == name && e.skyFile == SkyFileName(name)
    ensures e.settings == SimSettings(name, raDeg, decDeg, lengthSec, numTimeSteps, numChannels, env.lstHours, env.text)
    ensures e.sky == FilterByRadius(sky0, Annulus(raDeg, decDeg, 0.0, maxRadiusDeg), env.sep)
  {
    var settings := SimSettings(name, raDeg, decDeg, lengthSec, numTimeSteps, numChannels, env.lstHours, env.text);
    var sky, _, _ := MakeSkyModel(sky0, settings, maxRadiusDeg, env.text, env.sep);
    e := Simulated(name, settings, sky, SkyFileName(name));
  }

  /** Images one scale from the visibility file named after it. */
  function MakeImage(name: string, algorithm: string, rootPrefix: string, fovDeg: real,
                     numPixels: int, env: Env): (e: Event)
    ensures e.Imaged? && e.name == name
    ensures e.settings == ImageSettings(name, algorithm, rootPrefix, fovDeg, numPixels, env.text)
    ensures InputVisKey in e.settings && e.settings[InputVisKey] == VisFileName(name)
  {
    Imaged(name, ImageSettings(name, algorithm, rootPrefix, fovDeg, numPixels, env.text))
  }

  /** `e` is a simulation that writes the visibility file `file`. */
  predicate Produces(e: Event, file: string)
  {
    e.Simulated? && VisFileKey in e.settings && e.settings[VisFileKey] == file
  }

  /** `e` is an imaging run that reads the visibility file `file`. */
  predicate Consumes(e: Event, file: string)
  {
    e.Imaged? && InputVisKey in e.settings && e.settings[InputVisKey] == file
  }

  /** Every imaging run reads a file written by an earlier simulation of
      the same scale. */
  ghost predicate InputsProducedEarlier(trace: seq<Event>)
  {
    forall j, file :: 0 <= j < |trace| && Consumes(trace[j], file) ==>
      exists i :: 0 <= i < j && trace[i].name == trace[j].name && Produces(trace[i], file)
  }

  /** No simulation runs after an imaging run. */
  ghost predicate SimulationsFirst(trace: seq<Event>)
  {
    forall i, j :: 0 <= i < j < |trace| && trace[i].Imaged? ==> trace[j].Imaged?
  }

  /** A simulation whose settings record the phase centre (raDeg, decDeg). */
  predicate PointsAt(e: Event, raDeg: real, decDeg: real, text: Text)
  {
    && e.Simulated? && RaKey in e.settings && DecKey in e.settings
    && e.settings[RaKey] == text.ofReal(raDeg) && e.settings[DecKey] == text.ofReal(decDeg)
  }

  /** An imaging run with the FFT on the CPU. */
  predicate FftOnCpu(e: Event)
  {
    e.Imaged? && UseGpuKey in e.settings && e.settings[UseGpuKey] == "false"
  }

  /** Simulations followed by imaging runs of the same scales in the same
      order, each stage using the visibility file named after its scale:
      every imaging run reads a file an earlier simulation of its scale wrote. */
  lemma {:induction false} TwoPhaseTrace(sims: seq<Event>, images: seq<Event>)
    requires |sims| == |images|
    requires forall i :: 0 <= i < |sims| ==> Produces(sims[i], VisFileName(sims[i].name))
    requires forall i :: 0 <= i < |images| ==>
               Consumes(images[i], VisFileName(images[i].name)) && images[i].name == sims[i].name
    ensures SimulationsFirst(sims + images)
    ensures InputsProducedEarlier(sims + images)
  {
    var trace := sims + images;
    forall j, file | 0 <= j < |trace| && Consumes(trace[j], file)
      ensures exists i :: 0 <= i < j && trace[i].name == trace[j].name && Produces(trace[i], file)
    {
      assert trace[j] == images[j - |sims|];
      assert trace[j - |sims|] == sims[j - |sims|];
    }
  }

  // The campaign's literal constants.

  const PointingRaDeg: real := 60.0
  const PointingDecDeg: real := -30.0
  const Algorithm := "W-projection"
  const ImageRootPrefix := "img_wproj"

  /** The parameters that distinguish the simulation of one scale. */
  datatype ScaleSpec = ScaleSpec(name: string, maxRadiusDeg: real, lengthSec: real,
                                 numTimeSteps: int, numChannels: int)

  /** The parameters of the imaging of one scale. */
  datatype ImageSpec = ImageSpec(name: string, fovDeg: real, numPixels: int)

  /** The scales simulated, in call order. */
  const Scales: seq<ScaleSpec> := [
    ScaleSpec("large", 5.657, 14400.0, 60, 4),
    ScaleSpec("medium", 2.828, 3600.0, 30, 2),
    ScaleSpec("small", 0.707, 900.0, 30, 1)]

  /** The scales imaged, in call order. */
  const Images: seq<ImageSpec> := [
    ImageSpec("large", 8.0, 16384),
    ImageSpec("medium", 4.0, 8192),
    ImageSpec("small", 1.0, 2048)]

  /** The imaging table names the simulated scales in the same order. */
  lemma ImagesFollowScales()
    ensures |Images| == |Scales| == 3
    ensures forall i :: 0 <= i < |Images| ==> Images[i].name == Scales[i].name
  {
  }

  /** The disc of sky a scale of the given radius simulates. */
  function Field(radiusDeg: real): Annulus
  {
    Annulus(PointingRaDeg, PointingDecDeg, 0.0, radiusDeg)
  }

  /** `e` is the simulation of `spec` about the campaign's pointing, over
      the scale's observation length and centred on the pointing's transit. */
  predicate SimulatesScale(e: Event, spec: ScaleSpec, catalogue: seq<Source>, env: Env)
  {
    && e.Simulated? && e.name == spec.name && e.skyFile == SkyFileName(spec.name)
    && Produces(e, VisFileName(spec.name))
    && PointsAt(e, PointingRaDeg, PointingDecDeg, env.text)
    && e.sky == FilterByRadius(catalogue, Field(spec.maxRadiusDeg), env.sep)
    && LengthKey in e.settings && e.settings[LengthKey] == env.text.ofReal(spec.lengthSec)
    && StartTimeKey in e.settings
    && e.settings[StartTimeKey] == env.text.ofTime(SiderealTime.StartTime(env.lstHours, PointingRaDeg, spec.lengthSec))
    && NumTimeStepsKey in e.settings && e.settings[NumTimeStepsKey] == env.text.ofInt(spec.numTimeSteps)
    && NumChannelsKey in e.settings && e.settings[NumChannelsKey] == env.text.ofInt(spec.numChannels)
    && KeepsShared(e.settings)
  }

  /** `e` is the imaging of `spec` with the campaign's algorithm and root prefix. */
  predicate ImagesScale(e: Event, spec: ImageSpec, env: Env)
  {
    && e.Imaged? && e.name == spec.name
    && e.settings == ImageSettings(spec.name, Algorithm, ImageRootPrefix, spec.fovDeg, spec.numPixels, env.text)
  }

  /** A simulation event built from a scale's settings and its cut of the
      catalogue simulates that scale. */
  lemma SimulationOfScale(e: Event, spec: ScaleSpec, catalogue: seq<Source>, env: Env)
    requires e.Simulated? && e.name == spec.name && e.skyFile == SkyFileName(spec.name)
    requires e.settings == SimSettings(spec.name, PointingRaDeg, PointingDecDeg, spec.lengthSec,
                                       spec.numTimeSteps, spec.numChannels, env.lstHours, env.text)
    requires e.sky == FilterByRadius(catalogue, Field(spec.maxRadiusDeg), env.sep)
    ensures SimulatesScale(e, spec, catalogue, env)
  {
    SimSettingsShared(spec.name, PointingRaDeg, PointingDecDeg, spec.lengthSec,
                      spec.numTimeSteps, spec.numChannels, env.lstHours, env.text);
  }

  /** The simulation phase: the large, medium and small scales, in that
      order, about the same pointing. Each scale writes its own
      visibility file, and each smaller field is a part of the larger one. */
  method SimulateScales(catalogue: seq<Source>, env: Env) returns (sims: seq<Event>)
    requires ReadsBack(env.text, PointingRaDeg) && ReadsBack(env.text, PointingDecDeg)
    ensures |sims| == |Scales|
    ensures forall i :: 0 <= i < |sims| ==> SimulatesScale(sims[i], Scales[i], catalogue, env)
    ensures forall i, j, file :: 0 <= i < j < |sims| && Produces(sims[i], file) ==> !Produces(sims[j], file)
    ensures sims[0].Simulated? && sims[1].Simulated? && sims[2].Simulated?
    ensures IsSubsequence(sims[2].sky, sims[1].sky) && IsSubsequence(sims[1].sky, sims[0].sky)
    ensures FluxNonIncreasing(catalogue) ==> forall i :: 0 <= i < |sims| ==> FluxNonIncreasing(sims[i].sky)
  {
    sims := [];
    for k := 0 to |Scales|
      invariant |sims| == k
      invariant forall i :: 0 <= i < k ==> SimulatesScale(sims[i], Scales[i], catalogue, env)
    {
      var spec := Scales[k];
      var e := MakeVisData(spec.name, catalogue, PointingRaDeg, PointingDecDeg, spec.maxRadiusDeg,
                           spec.lengthSec, spec.numTimeSteps, spec.numChannels, env);
      SimulationOfScale(e, spec, catalogue, env);
      sims := sims + [e];
    }
    FilterMonotone(catalogue, Field(Scales[2].maxRadiusDeg), Field(Scales[1].maxRadiusDeg), env.sep);
    FilterMonotone(catalogue, Field(Scales[1].maxRadiusDeg), Field(Scales[0].maxRadiusDeg), env.sep);
    FileNamesInjective("large", "medium", ImageRootPrefix);
    FileNamesInjective("large", "small", ImageRootPrefix);
    FileNamesInjective("medium", "small", ImageRootPrefix);
    if FluxNonIncreasing(catalogue) {
      forall i | 0 <= i < |sims|
        ensures FluxNonIncreasing(sims[i].sky)
      {
        SubsequenceKeepsFluxOrder(sims[i].sky, catalogue);
      }
    }
  }

  /** The imaging phase: W-projection images of the large, medium and
      small scales, in that order, each from the visibility file of its
      scale; only the large one has its FFT on the CPU. */
  method ImageScales(env: Env) returns (images: seq<Event>)
    ensures |images| == |Images|
    ensures forall i :: 0 <= i < |images| ==> ImagesScale(images[i], Images[i], env)
    ensures forall i :: 0 <= i < |images| ==> Consumes(images[i], VisFileName(images[i].name))
    ensures forall i :: 0 <= i < |images| ==> (FftOnCpu(images[i]) <==> images[i].name == LargeScale)
  {
    images := [];
    for k := 0 to |Images|
      invariant |images| == k
      invariant forall i :: 0 <= i < k ==> ImagesScale(images[i], Images[i], env)
      invariant forall i :: 0 <= i < k ==> Consumes(images[i], VisFileName(images[i].name))
      invariant forall i :: 0 <= i < k ==> (FftOnCpu(images[i]) <==> images[i].name == LargeScale)
    {
      var spec := Images[k];
      images := images + [MakeImage(spec.name, Algorithm, ImageRootPrefix, spec.fovDeg, spec.numPixels, env)];
    }
  }

  /** Concatenating the two phases puts simulation `i` at position `i` and
      the imaging of the same row at position `i + 3`. */
  lemma PhasesLineUp(sims: seq<Event>, images: seq<Event>, catalogue: seq<Source>, env: Env)
    requires |sims| == |Scales| && |images| == |Images|
    requires forall i :: 0 <= i < |sims| ==> SimulatesScale(sims[i], Scales[i], catalogue, env)
    requires forall i :: 0 <= i < |images| ==> ImagesScale(images[i], Images[i], env)
    requires forall i :: 0 <= i < |images| ==> (FftOnCpu(images[i]) <==> images[i].name == LargeScale)
    requires forall i :: 0 <= i < |sims| ==> sims[i].Simulated? && FluxNonIncreasing(sims[i].sky)
    ensures forall i :: 0 <= i < 3 ==>
              SimulatesScale((sims + images)[i], Scales[i], catalogue, env)
              && ImagesScale((sims + images)[i + 3], Images[i], env)
    ensures forall i :: 0 <= i < 3 ==> (sims + images)[i].Simulated? && FluxNonIncreasing((sims + images)[i].sky)
    ensures forall i :: 3 <= i < 6 ==>
              (sims + images)[i].Imaged? && (FftOnCpu((sims + images)[i]) <==> (sims + images)[i].name == LargeScale)
  {
    assert forall i :: 0 <= i < 3 ==> (sims + images)[i] == sims[i] && (sims + images)[i + 3] == images[i];
  }

  /** The whole campaign over the catalogue rows: orders them by
      non-increasing flux, simulates the three scales, then images them. */
  method RunCampaign(rows: seq<Source>, env: Env) returns (catalogue: seq<Source>, trace: seq<Event>)
    requires ReadsBack(env.text, PointingRaDeg) && ReadsBack(env.text, PointingDecDeg)
    ensures FluxNonIncreasing(catalogue) && multiset(catalogue) == multiset(rows)
    ensures |trace| == 6
    ensures SimulationsFirst(trace)
    ensures InputsProducedEarlier(trace)
    ensures forall i :: 0 <= i < 3 ==>
              SimulatesScale(trace[i], Scales[i], catalogue, env) && ImagesScale(trace[i + 3], Images[i], env)
    ensures forall i :: 0 <= i < 3 ==> trace[i].Simulated? && FluxNonIncreasing(trace[i].sky)
    ensures forall i :: 3 <= i < 6 ==> trace[i].Imaged? && (FftOnCpu(trace[i]) <==> trace[i].name == LargeScale)
  {
    // The script appends the sorted rows to an empty sky model.
    catalogue := [] + SortByFlux(rows);
    var sims := SimulateScales(catalogue, env);
    var images := ImageScales(env);
    trace := sims + images;
    ImagesFollowScales();
    TwoPhaseTrace(sims, images);
    PhasesLineUp(sims, images, catalogue, env);
  }
}
