/**
 * The audio helpers (`utils/audio_utils.py`): the input/output partition of
 * the device list, the dtype and codec defaults, the playback guard, the
 * resampling choice and the ffmpeg conversion's output path and arguments.
 *
 * Samples are `real`s; only their number and order matter here. The sound
 * library, the resamplers and ffmpeg are parameters standing for what they
 * report back.
 */
module AudioUtils {
  import opened Wrappers
  import opened Strings
  import Paths

  // ---------------------------------------------------------------- get_audio_devices

  /** One entry of the sound library's device list; `hostapi` indexes the host-API list. */
  datatype Device = Device(name: string, hostapi: int, maxInputChannels: int,
                           maxOutputChannels: int, defaultSampleRate: real)

  /** The dictionary built for a device: its position in the list is its id. */
  datatype DeviceInfo = DeviceInfo(id: nat, name: string, hostapi: string, maxInputChannels: int,
                                   maxOutputChannels: int, defaultSampleRate: real)

  /** Whether Python indexing `xs[h]` succeeds on a list of length `n`: a negative index counts from the end. */
  predicate PyIndexes(h: int, n: nat) {
    -(n as int) <= h < n
  }

  /** `hostApis[h]` with Python's negative indexing. */
  function HostApiAt(hostApis: seq<string>, h: int): (r: string)
    requires PyIndexes(h, |hostApis|)
    ensures h >= 0 ==> r == hostApis[h]
    ensures h < 0 ==> r == hostApis[|hostApis| + h]
  {
    if h < 0 then hostApis[|hostApis| + h] else hostApis[h]
  }

  /** Every device names a host API that exists (otherwise the lookup raises). */
  predicate HostApisResolve(devices: seq<Device>, hostApis: seq<string>) {
    forall i :: 0 <= i < |devices| ==> PyIndexes(devices[i].hostapi, |hostApis|)
  }

  function Describe(devices: seq<Device>, hostApis: seq<string>, i: nat): (r: DeviceInfo)
    requires i < |devices| && PyIndexes(devices[i].hostapi, |hostApis|)
    ensures r.id == i && r.name == devices[i].name && r.hostapi == HostApiAt(hostApis, devices[i].hostapi)
    ensures r.maxInputChannels == devices[i].maxInputChannels
    ensures r.maxOutputChannels == devices[i].maxOutputChannels
  {
    var d := devices[i];
    DeviceInfo(i, d.name, HostApiAt(hostApis, d.hostapi), d.maxInputChannels, d.maxOutputChannels, d.defaultSampleRate)
  }

  /** The descriptions of the first `n` devices, in list order. */
  function Described(devices: seq<Device>, hostApis: seq<string>, n: nat): (r: seq<DeviceInfo>)
    requires n <= |devices| && HostApisResolve(devices, hostApis)
    ensures |r| == n
    ensures forall i :: 0 <= i < n ==> r[i] == Describe(devices, hostApis, i)
  {
    seq(n, i requires 0 <= i < n => Describe(devices, hostApis, i))
  }

  /** The devices with at least one input channel, in order. */
  function Inputs(infos: seq<DeviceInfo>): (r: seq<DeviceInfo>)
    ensures |r| <= |infos|
  {
    if |infos| == 0 then []
    else Inputs(infos[..|infos| - 1]) + (if infos[|infos| - 1].maxInputChannels > 0 then [infos[|infos| - 1]] else [])
  }

  /** The devices with at least one output channel, in order. */
  function Outputs(infos: seq<DeviceInfo>): (r: seq<DeviceInfo>)
    ensures |r| <= |infos|
  {
    if |infos| == 0 then []
    else Outputs(infos[..|infos| - 1]) + (if infos[|infos| - 1].maxOutputChannels > 0 then [infos[|infos| - 1]] else [])
  }

  /** A description is listed as an input exactly when it is one with input channels. */
  lemma {:induction false} InputsMembership(infos: seq<DeviceInfo>, d: DeviceInfo)
    ensures d in Inputs(infos) <==> d in infos && d.maxInputChannels > 0
  {
    if |infos| > 0 {
      InputsMembership(infos[..|infos| - 1], d);
      assert infos == infos[..|infos| - 1] + [infos[|infos| - 1]];
    }
  }

  /** A description is listed as an output exactly when it is one with output channels. */
  lemma {:induction false} OutputsMembership(infos: seq<DeviceInfo>, d: DeviceInfo)
    ensures d in Outputs(infos) <==> d in infos && d.maxOutputChannels > 0
  {
    if |infos| > 0 {
      OutputsMembership(infos[..|infos| - 1], d);
      assert infos == infos[..|infos| - 1] + [infos[|infos| - 1]];
    }
  }

  /**
   * `get_audio_devices`: `query` is the device and host-API lists, or None
   * when querying them raises. A negative host-API index counts from the end
   * of the list, as Python indexing does. Any failure, including a device
   * naming a host API that does not exist, yields two empty lists.
   */
  method GetAudioDevices(query: Option<(seq<Device>, seq<string>)>) returns (inputs: seq<DeviceInfo>, outputs: seq<DeviceInfo>)
    ensures query.None? ==> inputs == [] && outputs == []
    ensures query.Some? && !HostApisResolve(query.value.0, query.value.1) ==> inputs == [] && outputs == []
    ensures query.Some? && HostApisResolve(query.value.0, query.value.1) ==>
      var infos := Described(query.value.0, query.value.1, |query.value.0|);
      inputs == Inputs(infos) && outputs == Outputs(infos)
  {
    if query.None? {
      return [], [];
    }
    var (devices, hostApis) := query.value;
    inputs, outputs := [], [];
    var i := 0;
    while i < |devices|
      invariant 0 <= i <= |devices|
      invariant forall j :: 0 <= j < i ==> PyIndexes(devices[j].hostapi, |hostApis|)
      invariant inputs == Inputs(seq(i, j requires 0 <= j < i => Describe(devices, hostApis, j)))
      invariant outputs == Outputs(seq(i, j requires 0 <= j < i => Describe(devices, hostApis, j)))
    {
      var d := devices[i];
      if !(-|hostApis| <= d.hostapi < |hostApis|) {
        return [], [];
      }
      var hostApi := if d.hostapi < 0 then hostApis[|hostApis| + d.hostapi] else hostApis[d.hostapi];
      ghost var before := seq(i, j requires 0 <= j < i => Describe(devices, hostApis, j));
      var info := DeviceInfo(i, d.name, hostApi, d.maxInputChannels, d.maxOutputChannels, d.defaultSampleRate);
      ghost var after := seq(i + 1, j requires 0 <= j < i + 1 => Describe(devices, hostApis, j));
      assert after[..i] == before && after[i] == info;
      if d.maxInputChannels > 0 {
        inputs := inputs + [info];
      }
      if d.maxOutputChannels > 0 {
        outputs := outputs + [info];
      }
      i := i + 1;
    }
    assert Described(devices, hostApis, |devices|) == seq(i, j requires 0 <= j < i => Describe(devices, hostApis, j));
  }

  /** Each listed device carries its list position as id, and a device can be in both lists. */
  lemma DevicePartition(devices: seq<Device>, hostApis: seq<string>, i: nat)
    requires HostApisResolve(devices, hostApis) && i < |devices|
    ensures var infos := Described(devices, hostApis, |devices|);
      (infos[i] in Inputs(infos) <==> devices[i].maxInputChannels > 0)
      && (infos[i] in Outputs(infos) <==> devices[i].maxOutputChannels > 0)
      && infos[i].id == i
  {
    var infos := Described(devices, hostApis, |devices|);
    InputsMembership(infos, infos[i]);
    OutputsMembership(infos, infos[i]);
  }

  // ---------------------------------------------------------------- record_audio, play_audio

  /** `record_audio`'s dtype check: anything but 'int16' or 'float32' becomes 'float32'. */
  function RecordDtype(dtype: string): (r: string)
    ensures r == "int16" || r == "float32"
    ensures r == dtype <==> (dtype == "int16" || dtype == "float32")
  {
    if dtype == "int16" || dtype == "float32" then dtype else "float32"
  }

  /**
   * `play_audio`: nothing to play (None or no samples) is refused before the
   * device is touched; otherwise the result is whether playback started.
   */
  function PlayAudio(audio: Option<seq<real>>, playbackOk: bool): (r: bool)
    ensures r <==> audio.Some? && |audio.value| > 0 && playbackOk
    ensures audio.None? || audio.value == [] ==> !r
  {
    if audio.None? || |audio.value| == 0 then false else playbackOk
  }

  // ---------------------------------------------------------------- save_audio

  /** `save_audio`'s subtype: an explicit one is kept, else chosen by the lower-cased format. */
  function SaveSubtype(format: string, subtype: Option<string>): (r: Option<string>)
    ensures subtype.Some? ==> r == subtype
    ensures subtype.None? && (Lower(format) == "wav" || Lower(format) == "flac") ==> r == Some("PCM_16")
    ensures subtype.None? && Lower(format) == "ogg" ==> r == Some("VORBIS")
    ensures subtype.None? && Lower(format) == "mp3" ==> r == Some("MP3")
    ensures subtype.None? && Lower(format) !in {"wav", "flac", "ogg", "mp3"} ==> r.None?
  {
    if subtype.Some? then subtype
    else
      var f := Lower(format);
      if f == "wav" then Some("PCM_16")
      else if f == "flac" then Some("PCM_16")
      else if f == "ogg" then Some("VORBIS")
      else if f == "mp3" then Some("MP3")
      else None
  }

  /** The default subtype does not depend on the format's letter case. */
  lemma SaveSubtypeIgnoresCase(format: string)
    ensures SaveSubtype(format, None) == SaveSubtype(Lower(format), None)
  {
    LowerIdempotent(format);
  }

  // ---------------------------------------------------------------- resample_audio

  /** Python's `round` on a number: to the nearest integer, a tie to the even one. */
  function RoundHalfEven(x: real): (r: int)
    ensures -0.5 <= x - r as real <= 0.5
    ensures (x - r as real == 0.5 || x - r as real == -0.5) ==> r % 2 == 0
  {
    var f := x.Floor;
    var d := x - f as real;
    if d < 0.5 then f
    else if d > 0.5 then f + 1
    else if f % 2 == 0 then f else f + 1
  }

  /** How `resample_audio` treats a signal. */
  datatype Resampling =
    | Unchanged                  // the rates are equal: the input itself
    | Fourier(samples: int)      // scipy's resampler, to this many samples
    | Librosa                    // librosa's resampler

  /** A rate change of under 10%, measured as `abs(1 - orig / target)`. */
  predicate SmallChange(origRate: int, targetRate: int)
    requires targetRate > 0
  {
    -0.1 < 1.0 - origRate as real / targetRate as real < 0.1
  }

  /**
   * `resample_audio` for positive rates: equal rates return the input; a
   * small change and, when librosa is missing, any other change go to scipy
   * with the sample count scaled by `target / orig` and rounded; the rest go
   * to librosa.
   */
  function ResampleMethod(length: nat, origRate: int, targetRate: int, librosaAvailable: bool): (r: Resampling)
    requires origRate > 0 && targetRate > 0
    ensures r == Unchanged <==> origRate == targetRate
    ensures r.Fourier? ==>
      -0.5 <= length as real * (targetRate as real / origRate as real) - r.samples as real <= 0.5
    ensures r == Librosa <==>
      (origRate != targetRate && librosaAvailable && !SmallChange(origRate, targetRate))
  {
    if origRate == targetRate then Unchanged
    else if SmallChange(origRate, targetRate) || !librosaAvailable then
      Fourier(RoundHalfEven(length as real * (targetRate as real / origRate as real)))
    else Librosa
  }

  // ---------------------------------------------------------------- convert_audio_to_wav

  /** The suffix `pathlib` sees in a file name: from the last dot, unless that dot leads or ends it. */
  function NameSuffix(name: string): (r: string)
    ensures EndsWith(name, r)
    ensures r != "" ==> r[0] == '.' && |r| >= 2 && |r| < |name|
    ensures r != "" ==> '.' !in r[1..]
  {
    var i := RFind(name, '.');
    if 0 < i < |name| - 1 then name[i..] else ""
  }

  /**
   * `Path(p).with_suffix("." + format)`: None where pathlib raises, that is
   * for a path without a final name and for a format that is empty or
   * holds a separator.
   */
  function WithSuffix(path: string, format: string): (r: Option<string>)
    ensures r.None? <==> Paths.BaseName(path) == "" || format == "" || '/' in format
    ensures r.Some? ==> EndsWith(r.value, "." + format)
  {
    var name := Paths.BaseName(path);
    if name == "" || format == "" || '/' in format then None
    else
      var stem := name[..|name| - |NameSuffix(name)|];
      var r := path[..|path| - |name|] + (stem + ("." + format));
      EndsWithNested(path[..|path| - |name|], stem, "." + format);
      Some(r)
  }

  lemma EndsWithNested(a: string, b: string, c: string)
    ensures EndsWith(a + (b + c), c)
  {
    var s := a + (b + c);
    assert forall i :: 0 <= i < |c| ==> s[|s| - |c| + i] == c[i];
  }

  /** Changing to a dot-free format twice is changing once: the new suffix is what is replaced. */
  lemma WithSuffixIdempotent(path: string, format: string)
    requires WithSuffix(path, format).Some? && '.' !in format
    ensures WithSuffix(WithSuffix(path, format).value, format) == WithSuffix(path, format)
  {
    var name := Paths.BaseName(path);
    var stem := name[..|name| - |NameSuffix(name)|];
    var dir := path[..|path| - |name|];
    var p := WithSuffix(path, format).value;
    assert p == dir + (stem + ("." + format));
    StemIsName(name);
    var name' := stem + ("." + format);
    assert '/' !in format;
    assert '/' !in name';
    DirectoryPartEnds(path);
    BaseNameOfJoined(dir, name');
    SuffixOfFormatted(stem, format);
    assert Paths.BaseName(p) == name' && NameSuffix(name') == "." + format;
    assert name'[..|name'| - |NameSuffix(name')|] == stem;
    assert p[..|p| - |name'|] == dir;
    assert WithSuffix(p, format) == Some(dir + (stem + ("." + format)));
  }

  /** What is left of a file name without its suffix is a non-empty piece of it. */
  lemma StemIsName(name: string)
    requires name != "" && '/' !in name
    ensures var stem := name[..|name| - |NameSuffix(name)|];
      stem != "" && '/' !in stem
  {
    var stem := name[..|name| - |NameSuffix(name)|];
    assert forall k :: 0 <= k < |stem| ==> stem[k] == name[k];
  }

  /** The suffix of `stem.format`, for a dot-free format, is `.format`. */
  lemma SuffixOfFormatted(stem: string, format: string)
    requires stem != "" && format != "" && '.' !in format
    ensures NameSuffix(stem + ("." + format)) == "." + format
  {
    var n := stem + ("." + format);
    var i := RFind(n, '.');
    assert n[|stem|] == '.';
    assert forall j :: |stem| < j < |n| ==> n[j] == format[j - |stem| - 1];
    assert i == |stem|;
    assert n[i..] == "." + format;
  }

  /** The final name of `dir + name` for a separator-free, non-empty `name` whose `dir` ends in a separator or is empty. */
  lemma BaseNameOfJoined(dir: string, name: string)
    requires name != "" && '/' !in name
    requires dir == "" || dir[|dir| - 1] == '/'
    ensures Paths.BaseName(dir + name) == name
  {
    var p := dir + name;
    var k := RFind(p, '/');
    assert forall j :: |dir| <= j < |p| ==> p[j] == name[j - |dir|];
    if dir != "" {
      assert p[|dir| - 1] == '/';
      assert k == |dir| - 1;
    } else {
      assert k == -1;
    }
    assert p[k + 1..] == name;
  }

  /** The directory part `with_suffix` keeps ends in a separator, or is empty. */
  lemma DirectoryPartEnds(path: string)
    ensures var name := Paths.BaseName(path);
      var dir := path[..|path| - |name|];
      dir == "" || dir[|dir| - 1] == '/'
  {
    var k := RFind(path, '/');
    var name := Paths.BaseName(path);
    assert name == path[k + 1..];
    assert |path| - |name| == k + 1;
    if k >= 0 {
      assert path[..k + 1][k] == path[k] == '/';
    }
  }

  /** `convert_audio_to_wav`'s output path: the given one, or the input with the format as suffix. */
  function OutputPath(input: string, output: Option<string>, format: string): (r: Option<string>)
    ensures output.Some? ==> r == output
    ensures output.None? ==> r == WithSuffix(input, format)
  {
    if output.Some? then output else WithSuffix(input, format)
  }

  /** The list with its None entries removed, order kept. */
  function Present(xs: seq<Option<string>>): (r: seq<string>)
    ensures |r| <= |xs|
  {
    if |xs| == 0 then []
    else (if xs[0].Some? then [xs[0].value] else []) + Present(xs[1..])
  }

  /** Each string as a present entry. */
  function Somes(xs: seq<string>): (r: seq<Option<string>>)
    ensures |r| == |xs| && forall i :: 0 <= i < |xs| ==> r[i] == Some(xs[i])
  {
    seq(|xs|, i requires 0 <= i < |xs| => Some(xs[i]))
  }

  /** Dropping Nones works piecewise over a concatenation. */
  lemma {:induction false} PresentAppend(a: seq<Option<string>>, b: seq<Option<string>>)
    ensures Present(a + b) == Present(a) + Present(b)
  {
    if |a| == 0 {
      assert a + b == b;
    } else {
      assert (a + b)[0] == a[0];
      assert (a + b)[1..] == a[1..] + b;
      PresentAppend(a[1..], b);
    }
  }

  /** A list with no None loses nothing. */
  lemma {:induction false} PresentSomes(xs: seq<string>)
    ensures Present(Somes(xs)) == xs
  {
    if |xs| > 0 {
      assert Somes(xs)[1..] == Somes(xs[1..]);
      PresentSomes(xs[1..]);
    }
  }

  /** An entry is kept exactly when it is present. */
  lemma {:induction false} PresentMembership(xs: seq<Option<string>>, x: string)
    ensures x in Present(xs) <==> Some(x) in xs
  {
    if |xs| > 0 {
      PresentMembership(xs[1..], x);
      assert xs == [xs[0]] + xs[1..];
    }
  }

  /**
   * The ffmpeg command line: overwrite, input, channels, rate, the PCM codec
   * only for wav, the format and the output. The codec's value is None for
   * other formats, and dropping the Nones leaves '-acodec' directly before '-f'.
   */
  function FfmpegArgs(input: string, output: string, channels: int, sampleRate: int, format: string): (r: seq<string>)
    ensures |r| == if format == "wav" then 13 else 12
    ensures r[..9] == ["ffmpeg", "-y", "-i", input, "-ac", IntToString(channels), "-ar", IntToString(sampleRate), "-acodec"]
    ensures format == "wav" ==> r[9..] == ["pcm_s16le", "-f", format, output]
    ensures format != "wav" ==> r[9..] == ["-f", format, output]
  {
    var head := ["ffmpeg", "-y", "-i", input, "-ac", IntToString(channels), "-ar", IntToString(sampleRate), "-acodec"];
    var codec: Option<string> := if format == "wav" then Some("pcm_s16le") else None;
    var tail := ["-f", format, output];
    PresentAppend(Somes(head) + [codec], Somes(tail));
    PresentAppend(Somes(head), [codec]);
    PresentSomes(head);
    PresentSomes(tail);
    assert [codec][1..] == [];
    assert Present([codec]) == if format == "wav" then ["pcm_s16le"] else [];
    Present(Somes(head) + [codec] + Somes(tail))
  }

  /** What the environment does when asked: does ffmpeg exist, does it exit cleanly, how big is the output. */
  datatype Environment = Environment(mkdirOk: bool, ffmpegFound: bool, ffmpegOk: bool, outputSize: nat)

  /**
   * `convert_audio_to_wav`: None for a missing input, an unusable output
   * path, a failed mkdir, a missing or failing ffmpeg, or an empty or
   * missing output; otherwise the output path.
   */
  function ConvertAudioToWav(input: string, output: Option<string>, format: string,
                             existing: set<string>, env: Environment): (r: Option<string>)
    ensures input !in existing ==> r.None?
    ensures r.Some? <==>
      (input in existing && OutputPath(input, output, format).Some?
       && env.mkdirOk && env.ffmpegFound && env.ffmpegOk && env.outputSize > 0)
    ensures r.Some? ==> r == OutputPath(input, output, format)
  {
    if input !in existing then None
    else
      var out := OutputPath(input, output, format);
      if out.None? || !env.mkdirOk || !env.ffmpegFound || !env.ffmpegOk then None
      else if env.outputSize > 0 then out
      else None
  }

  /** With no output given, a successful conversion writes next to the input, named by the format. */
  lemma DefaultOutputBesideInput(input: string, format: string, existing: set<string>, env: Environment)
    requires ConvertAudioToWav(input, None, format, existing, env).Some?
    ensures var out := ConvertAudioToWav(input, None, format, existing, env).value;
      EndsWith(out, "." + format)
      && out[..|input| - |Paths.BaseName(input)|] == input[..|input| - |Paths.BaseName(input)|]
  {
  }
}
