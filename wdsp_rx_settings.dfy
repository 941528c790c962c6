/** The settings record of the WDSP receiver channel
    (plugins/channelrx/wdsprx/wdsprxsettings.cpp): the defaults that
    resetToDefaults assigns, the tag layout serialize writes (top-level tags
    1..82 and ten profile blocks at 100 * (i + 1) + offset), and what
    deserialize reads back, with its defaults, clamps and error path.

    The specification functions Reset, Encode and Restore describe those three
    operations on values; the class WDSPRxSettings performs them member by
    member and is proved to agree with them. The members that resetToDefaults
    assigns are grouped into one record per section of that function (audio,
    AGC, noise blanker, noise reduction, demods, squelch, channel). */
module WdspRxSettings {
  import opened SettingsStore

  // Enumerator values of WDSPRxProfile and the default audio device name of
  // AudioDeviceManager. Their declarations (wdsprxprofile.h,
  // audiodevicemanager.cpp) are not part of this model, so they are left
  // without a value here.
  const DemodSSB: int32
  const AGCMedium: int32
  const NBSchemeNB: int32
  const NB2ModeZero: int32
  const NRSchemeNR: int32
  const NR2GainGamma: int32
  const NR2NPEOSMS: int32
  const NRPositionPreAGC: int32
  const SquelchModeVoice: int32
  const DefaultAudioDeviceName: string

  /** QColor(0, 255, 196).rgb(): opaque alpha, then red, green and blue bytes. */
  const DefaultRgbColor: uint32 := 0xFF00_FFC4

  /** The number of stored receiver profiles (m_profiles.resize(10)). */
  const ProfileCount: nat := 10

  /** The members of one WDSPRxProfile that are serialised; enumerations are
      held as their integer codes. */
  datatype Profile = Profile(
    demod: int32,
    spanLog2: int32,
    highCutoff: real,
    lowCutoff: real,
    fftWindow: int32,
    agc: bool,
    agcMode: int32,
    agcGain: int32,
    agcSlope: int32,
    agcHangThreshold: int32,
    dnb: bool,
    nbScheme: int32,
    nb2Mode: int32,
    nbSlewTime: real,
    nbLeadTime: real,
    nbLagTime: real,
    nbThreshold: int32,
    nbAvgTime: real,
    dnr: bool,
    anf: bool,
    nrScheme: int32,
    nr2Gain: int32,
    nr2NPE: int32,
    nrPosition: int32,
    nr2ArtifactReduction: bool,
    amFadeLevel: bool,
    cwPeaking: bool,
    cwPeakFrequency: real,
    cwBandwidth: real,
    cwGain: real,
    fmDeviation: real,
    fmAFLow: real,
    fmAFHigh: real,
    fmAFLimiter: bool,
    fmAFLimiterGain: real,
    fmCTCSSNotch: bool,
    fmCTCSSNotchFrequency: real,
    squelch: bool,
    squelchThreshold: int32,
    ssqlTauMute: real,
    ssqlTauUnmute: real,
    amsqMaxTail: real)

  /** The demodulator and the audio output. */
  datatype Audio = Audio(
    demod: int32,
    audioBinaural: bool,
    audioFlipChannels: bool,
    dsb: bool,
    audioMute: bool)

  /** Automatic gain control. */
  datatype Agc = Agc(
    agc: bool,
    agcMode: int32,
    agcGain: int32,
    agcSlope: int32,
    agcHangThreshold: int32)

  /** Noise blanker. */
  datatype NoiseBlanker = NoiseBlanker(
    dnb: bool,
    nbScheme: int32,
    nb2Mode: int32,
    nbSlewTime: real,
    nbLeadTime: real,
    nbLagTime: real,
    nbThreshold: int32,
    nbAvgTime: real)

  /** Noise reduction. */
  datatype NoiseReduction = NoiseReduction(
    dnr: bool,
    anf: bool,
    nrScheme: int32,
    nr2Gain: int32,
    nr2NPE: int32,
    nrPosition: int32,
    nr2ArtifactReduction: bool)

  /** Per-mode demodulator options. */
  datatype Demods = Demods(
    amFadeLevel: bool,
    cwPeaking: bool,
    cwPeakFrequency: real,
    cwBandwidth: real,
    cwGain: real,
    fmDeviation: real,
    fmAFLow: real,
    fmAFHigh: real,
    fmAFLimiter: bool,
    fmAFLimiterGain: real,
    fmCTCSSNotch: bool,
    fmCTCSSNotchFrequency: real)

  /** Squelch. */
  datatype Squelch = Squelch(
    squelch: bool,
    squelchThreshold: int32,
    squelchMode: int32,
    ssqlTauMute: real,
    ssqlTauUnmute: real,
    amsqMaxTail: real)

  /** Volume, frequency offset, display, audio device and reverse API. */
  datatype Channel = Channel(
    volume: real,
    inputFrequencyOffset: int32,
    rgbColor: uint32,
    title: string,
    audioDeviceName: string,
    streamIndex: int32,
    useReverseAPI: bool,
    reverseAPIAddress: string,
    reverseAPIPort: uint32,
    reverseAPIDeviceIndex: uint32,
    reverseAPIChannelIndex: uint32,
    workspaceIndex: int32,
    hidden: bool,
    profileIndex: uint32)

  /** The whole observable state of a WDSPRxSettings object. The attached
      spectrum GUI and rollup state are None for a null pointer, and otherwise
      stand for the attached object by its serialised bytes. */
  datatype Settings = Settings(
    audio: Audio,
    agc: Agc,
    noiseBlanker: NoiseBlanker,
    noiseReduction: NoiseReduction,
    demods: Demods,
    squelch: Squelch,
    channel: Channel,
    geometryBytes: seq<byte>,
    profiles: seq<Profile>,
    spectrumGui: Option<seq<byte>>,
    rollupState: Option<seq<byte>>)

  const DefaultAudio: Audio := Audio(DemodSSB, false, false, false, false)
  const DefaultAgc: Agc := Agc(false, AGCMedium, 80, 35, 0)
  const DefaultNoiseBlanker: NoiseBlanker := NoiseBlanker(false, NBSchemeNB, NB2ModeZero, 0.1, 0.1, 0.1, 30, 50.0)
  const DefaultNoiseReduction: NoiseReduction := NoiseReduction(false, false, NRSchemeNR, NR2GainGamma, NR2NPEOSMS, NRPositionPreAGC, true)
  const DefaultDemods: Demods := Demods(false, false, 600.0, 100.0, 2.0, 2500.0, 300.0, 3000.0, false, 10.0, false, 67.0)
  const DefaultSquelch: Squelch := Squelch(false, 3, SquelchModeVoice, 0.1, 0.1, 1.5)
  const DefaultChannel: Channel := Channel(1.0, 0, DefaultRgbColor, "WDSP Receiver", DefaultAudioDeviceName, 0, false, "127.0.0.1", 8888, 0, 0, 0, false, 0)

  /** resetToDefaults: every member it names takes its default; the profiles,
      the geometry bytes and the attachments are left alone. */
  function Reset(s: Settings): Settings {
    s.(audio := DefaultAudio, agc := DefaultAgc, noiseBlanker := DefaultNoiseBlanker, noiseReduction := DefaultNoiseReduction, demods := DefaultDemods, squelch := DefaultSquelch, channel := DefaultChannel)
  }

  // ---------------------------------------------------------------------
  // Scaled integer encodings and the read-side clamps
  // ---------------------------------------------------------------------

  /** The volume is written as the int conversion of volume * 10. */
  function EncodeVolume(v: real): int32 {
    DoubleToInt32(v * 10.0)
  }

  /** ... and read back as the stored integer / 10. */
  function DecodeVolume(t: int32): real {
    t as real / 10.0
  }

  /** A profile cutoff is written as the int conversion of cutoff / 100. */
  function EncodeCutoff(c: real): int32 {
    DoubleToInt32(c / 100.0)
  }

  /** ... and read back as the stored integer * 100. */
  function DecodeCutoff(t: int32): real {
    t as real * 100.0
  }

  /** The reverse-API port is kept when strictly between 1023 and 65535, else 8888. */
  function ClampPort(u: uint32): (r: uint32)
    ensures 1023 < r < 65535
    ensures r == u <==> 1023 < u < 65535
    ensures r != u ==> r == 8888
  {
    if 1023 < u < 65535 then u else 8888
  }

  /** Reverse-API device and channel indexes are capped at 99. */
  function ClampIndex(u: uint32): (r: uint32)
    ensures r <= 99
    ensures r == u <==> u <= 99
    ensures r != u ==> r == 99
  {
    if u > 99 then 99 else u
  }

  /** The selected profile index is kept when it names a profile, else 0. */
  function ClampProfileIndex(u: uint32): (r: uint32)
    ensures r < ProfileCount as uint32
    ensures r == u <==> u < ProfileCount as uint32
    ensures r != u ==> r == 0
  {
    if u < ProfileCount as uint32 then u else 0
  }

  // ---------------------------------------------------------------------
  // serialize, on values
  // ---------------------------------------------------------------------

  /** The frequency offset, the demodulation, the volume, the spectrum GUI
      when one is attached, and the colour. */
  function WriteHead(m: Entries, s: Settings): Entries {
    var m := m
      [1 := S32(s.channel.inputFrequencyOffset)]
      [2 := S32(s.audio.demod)]
      [3 := S32(EncodeVolume(s.channel.volume))];
    var m := if s.spectrumGui.Some? then m[4 := Blob(s.spectrumGui.value)] else m;
    m
      [5 := U32(s.channel.rgbColor)]
  }

  /** The audio section. */
  function WriteAudio(m: Entries, s: Settings): Entries {
    m
      [8 := Bool(s.audio.audioBinaural)]
      [9 := Bool(s.audio.audioFlipChannels)]
      [10 := Bool(s.audio.dsb)]
  }

  /** The AGC section. */
  function WriteAgc(m: Entries, s: Settings): Entries {
    m
      [11 := Bool(s.agc.agc)]
      [12 := S32(s.agc.agcMode)]
      [13 := S32(s.agc.agcGain)]
      [14 := S32(s.agc.agcSlope)]
      [15 := S32(s.agc.agcHangThreshold)]
  }

  /** The noise blanker section. */
  function WriteNoiseBlanker(m: Entries, s: Settings): Entries {
    m
      [20 := Bool(s.noiseBlanker.dnb)]
      [21 := S32(s.noiseBlanker.nbScheme)]
      [22 := S32(s.noiseBlanker.nb2Mode)]
      [23 := Double(s.noiseBlanker.nbSlewTime)]
      [24 := Double(s.noiseBlanker.nbLeadTime)]
      [25 := Double(s.noiseBlanker.nbLagTime)]
      [26 := S32(s.noiseBlanker.nbThreshold)]
      [27 := Double(s.noiseBlanker.nbAvgTime)]
  }

  /** The noise reduction section. */
  function WriteNoiseReduction(m: Entries, s: Settings): Entries {
    m
      [30 := Bool(s.noiseReduction.dnr)]
      [32 := Bool(s.noiseReduction.anf)]
      [33 := S32(s.noiseReduction.nrScheme)]
      [34 := S32(s.noiseReduction.nr2Gain)]
      [35 := S32(s.noiseReduction.nr2NPE)]
      [36 := S32(s.noiseReduction.nrPosition)]
      [37 := Bool(s.noiseReduction.nr2ArtifactReduction)]
  }

  /** The demods section. */
  function WriteDemods(m: Entries, s: Settings): Entries {
    m
      [40 := Bool(s.demods.amFadeLevel)]
      [41 := Bool(s.demods.cwPeaking)]
      [42 := Double(s.demods.cwPeakFrequency)]
      [43 := Double(s.demods.cwBandwidth)]
      [44 := Double(s.demods.cwGain)]
      [45 := Double(s.demods.fmDeviation)]
      [46 := Double(s.demods.fmAFLow)]
      [47 := Double(s.demods.fmAFHigh)]
      [48 := Bool(s.demods.fmAFLimiter)]
      [49 := Double(s.demods.fmAFLimiterGain)]
      [50 := Bool(s.demods.fmCTCSSNotch)]
      [51 := Double(s.demods.fmCTCSSNotchFrequency)]
  }

  /** The squelch section. */
  function WriteSquelch(m: Entries, s: Settings): Entries {
    m
      [60 := Bool(s.squelch.squelch)]
      [61 := S32(s.squelch.squelchThreshold)]
      [62 := Double(s.squelch.ssqlTauMute)]
      [63 := Double(s.squelch.ssqlTauUnmute)]
      [64 := Double(s.squelch.amsqMaxTail)]
  }

  /** Title, audio device, reverse API, stream, the rollup state when one
      is attached, workspace, geometry, hidden flag and profile index. */
  function WriteTail(m: Entries, s: Settings): Entries {
    var m := m
      [70 := Str(s.channel.title)]
      [71 := Str(s.channel.audioDeviceName)]
      [72 := Bool(s.channel.useReverseAPI)]
      [73 := Str(s.channel.reverseAPIAddress)]
      [74 := U32(s.channel.reverseAPIPort)]
      [75 := U32(s.channel.reverseAPIDeviceIndex)]
      [76 := U32(s.channel.reverseAPIChannelIndex)]
      [77 := S32(s.channel.streamIndex)];
    var m := if s.rollupState.Some? then m[78 := Blob(s.rollupState.value)] else m;
    m
      [79 := S32(s.channel.workspaceIndex)]
      [80 := Blob(s.geometryBytes)]
      [81 := Bool(s.channel.hidden)]
      [82 := U32(s.channel.profileIndex)]
  }

  /** The number of sections of the top-level elements. */
  const TopSectionCount: nat := 8

  /** Section k of the top-level elements: head, audio, AGC, noise blanker,
      noise reduction, demods, squelch and tail, in the order serialize
      writes them. */
  function WriteTopSection(m: Entries, s: Settings, k: nat): Entries {
    if k == 0 then WriteHead(m, s)
    else if k == 1 then WriteAudio(m, s)
    else if k == 2 then WriteAgc(m, s)
    else if k == 3 then WriteNoiseBlanker(m, s)
    else if k == 4 then WriteNoiseReduction(m, s)
    else if k == 5 then WriteDemods(m, s)
    else if k == 6 then WriteSquelch(m, s)
    else WriteTail(m, s)
  }

  /** Sections k, k + 1, ... of the top-level elements written over m in order. */
  function WriteTopFrom(m: Entries, s: Settings, k: nat): Entries
    decreases TopSectionCount - k
  {
    if k >= TopSectionCount then m else WriteTopFrom(WriteTopSection(m, s, k), s, k + 1)
  }

  /** The top-level elements, written in the order serialize writes them;
      tags 4 and 78 only when the corresponding object is attached. */
  function TopEntries(s: Settings): Entries {
    WriteTopFrom(map[], s, 0)
  }

  /** The number of sections of a profile block. */
  const ProfileSectionCount: nat := 6

  /** Section k of profile block i: filter, AGC, noise blanker, noise
      reduction, demods and squelch, in the order serialize writes them. */
  function WriteProfileSection(m: Entries, i: int, p: Profile, k: nat): Entries {
    if k == 0 then WriteProfileFilter(m, i, p)
    else if k == 1 then WriteProfileAgc(m, i, p)
    else if k == 2 then WriteProfileNoiseBlanker(m, i, p)
    else if k == 3 then WriteProfileNoiseReduction(m, i, p)
    else if k == 4 then WriteProfileDemods(m, i, p)
    else WriteProfileSquelch(m, i, p)
  }

  /** Sections k, k + 1, ... of profile block i written over m in order. */
  function WriteProfileFrom(m: Entries, i: int, p: Profile, k: nat): Entries
    decreases ProfileSectionCount - k
  {
    if k >= ProfileSectionCount then m else WriteProfileFrom(WriteProfileSection(m, i, p, k), i, p, k + 1)
  }

  /** The 42 elements of profile i, at tags offset + 100 * (i + 1), written
      section by section in the order serialize writes them. */
  function WriteProfile(m: Entries, i: int, p: Profile): Entries {
    WriteProfileFrom(m, i, p, 0)
  }

  /** The demodulation, spectrum span, cutoffs and FFT window elements of profile i. */
  function WriteProfileFilter(m: Entries, i: int, p: Profile): Entries {
    m
      [104 + 100 * i := S32(p.demod)]
      [100 + 100 * i := S32(p.spanLog2)]
      [101 + 100 * i := S32(EncodeCutoff(p.highCutoff))]
      [102 + 100 * i := S32(EncodeCutoff(p.lowCutoff))]
      [103 + 100 * i := S32(p.fftWindow)]
  }

  /** The AGC elements of profile i. */
  function WriteProfileAgc(m: Entries, i: int, p: Profile): Entries {
    m
      [110 + 100 * i := Bool(p.agc)]
      [111 + 100 * i := S32(p.agcMode)]
      [112 + 100 * i := S32(p.agcGain)]
      [113 + 100 * i := S32(p.agcSlope)]
      [114 + 100 * i := S32(p.agcHangThreshold)]
  }

  /** The noise blanker elements of profile i. */
  function WriteProfileNoiseBlanker(m: Entries, i: int, p: Profile): Entries {
    m
      [120 + 100 * i := Bool(p.dnb)]
      [121 + 100 * i := S32(p.nbScheme)]
      [122 + 100 * i := S32(p.nb2Mode)]
      [123 + 100 * i := Double(p.nbSlewTime)]
      [124 + 100 * i := Double(p.nbLeadTime)]
      [125 + 100 * i := Double(p.nbLagTime)]
      [126 + 100 * i := S32(p.nbThreshold)]
      [127 + 100 * i := Double(p.nbAvgTime)]
  }

  /** The noise reduction elements of profile i. */
  function WriteProfileNoiseReduction(m: Entries, i: int, p: Profile): Entries {
    m
      [130 + 100 * i := Bool(p.dnr)]
      [132 + 100 * i := Bool(p.anf)]
      [133 + 100 * i := S32(p.nrScheme)]
      [134 + 100 * i := S32(p.nr2Gain)]
      [135 + 100 * i := S32(p.nr2NPE)]
      [136 + 100 * i := S32(p.nrPosition)]
      [137 + 100 * i := Bool(p.nr2ArtifactReduction)]
  }

  /** The demods elements of profile i. */
  function WriteProfileDemods(m: Entries, i: int, p: Profile): Entries {
    m
      [140 + 100 * i := Bool(p.amFadeLevel)]
      [141 + 100 * i := Bool(p.cwPeaking)]
      [142 + 100 * i := Double(p.cwPeakFrequency)]
      [143 + 100 * i := Double(p.cwBandwidth)]
      [144 + 100 * i := Double(p.cwGain)]
      [145 + 100 * i := Double(p.fmDeviation)]
      [146 + 100 * i := Double(p.fmAFLow)]
      [147 + 100 * i := Double(p.fmAFHigh)]
      [148 + 100 * i := Bool(p.fmAFLimiter)]
      [149 + 100 * i := Double(p.fmAFLimiterGain)]
      [150 + 100 * i := Bool(p.fmCTCSSNotch)]
      [151 + 100 * i := Double(p.fmCTCSSNotchFrequency)]
  }

  /** The squelch elements of profile i. */
  function WriteProfileSquelch(m: Entries, i: int, p: Profile): Entries {
    m
      [160 + 100 * i := Bool(p.squelch)]
      [161 + 100 * i := S32(p.squelchThreshold)]
      [162 + 100 * i := Double(p.ssqlTauMute)]
      [163 + 100 * i := Double(p.ssqlTauUnmute)]
      [164 + 100 * i := Double(p.amsqMaxTail)]
  }

  /** Profiles k, k + 1, ... written over m in order, profile k as block k,
      as the loop of serialize writes them. */
  function WriteProfilesFrom(m: Entries, ps: seq<Profile>, k: nat): Entries
    decreases |ps| - k
  {
    if k >= |ps| then m else WriteProfilesFrom(WriteProfile(m, k, ps[k]), ps, k + 1)
  }

  /** serialize: version 1, the top-level elements, then the ten profiles. */
  function Encode(s: Settings): Archive
    requires |s.profiles| == ProfileCount
  {
    Archive(1, WriteProfilesFrom(TopEntries(s), s.profiles, 0))
  }

  // ---------------------------------------------------------------------
  // deserialize, on values
  // ---------------------------------------------------------------------

  /** The reads of one section of a version-1 archive, in the order
      deserialize performs them, with their defaults and clamps; a member
      that is not stored (audioMute, squelchMode) keeps its value. */
  function ReadAudio(x: Audio, e: Entries): Audio {
    x.(
      demod := ReadS32(e, 2, 0),
      audioBinaural := ReadBool(e, 8, false),
      audioFlipChannels := ReadBool(e, 9, false),
      dsb := ReadBool(e, 10, false))
  }

  function ReadAgc(x: Agc, e: Entries): Agc {
    x.(
      agc := ReadBool(e, 11, true),
      agcMode := ReadS32(e, 12, 2),
      agcGain := ReadS32(e, 13, 80),
      agcSlope := ReadS32(e, 14, 35),
      agcHangThreshold := ReadS32(e, 15, 0))
  }

  function ReadNoiseBlanker(x: NoiseBlanker, e: Entries): NoiseBlanker {
    x.(
      dnb := ReadBool(e, 20, false),
      nbScheme := ReadS32(e, 21, 2),
      nb2Mode := ReadS32(e, 22, 2),
      nbSlewTime := ReadDouble(e, 23, 0.1),
      nbLeadTime := ReadDouble(e, 24, 0.1),
      nbLagTime := ReadDouble(e, 25, 0.1),
      nbThreshold := ReadS32(e, 26, 30),
      nbAvgTime := ReadDouble(e, 27, 50.0))
  }

  function ReadNoiseReduction(x: NoiseReduction, e: Entries): NoiseReduction {
    x.(
      dnr := ReadBool(e, 30, false),
      anf := ReadBool(e, 32, false),
      nrScheme := ReadS32(e, 33, 2),
      nr2Gain := ReadS32(e, 34, 2),
      nr2NPE := ReadS32(e, 35, 2),
      nrPosition := ReadS32(e, 36, 2),
      nr2ArtifactReduction := ReadBool(e, 37, true))
  }

  function ReadDemods(x: Demods, e: Entries): Demods {
    x.(
      amFadeLevel := ReadBool(e, 40, false),
      cwPeaking := ReadBool(e, 41, false),
      cwPeakFrequency := ReadDouble(e, 42, 600.0),
      cwBandwidth := ReadDouble(e, 43, 100.0),
      cwGain := ReadDouble(e, 44, 2.0),
      fmDeviation := ReadDouble(e, 45, 2500.0),
      fmAFLow := ReadDouble(e, 46, 300.0),
      fmAFHigh := ReadDouble(e, 47, 3000.0),
      fmAFLimiter := ReadBool(e, 48, false),
      fmAFLimiterGain := ReadDouble(e, 49, 10.0),
      fmCTCSSNotch := ReadBool(e, 50, false),
      fmCTCSSNotchFrequency := ReadDouble(e, 51, 67.0))
  }

  function ReadSquelch(x: Squelch, e: Entries): Squelch {
    x.(
      squelch := ReadBool(e, 60, false),
      squelchThreshold := ReadS32(e, 61, 3),
      ssqlTauMute := ReadDouble(e, 62, 0.1),
      ssqlTauUnmute := ReadDouble(e, 63, 0.1),
      amsqMaxTail := ReadDouble(e, 64, 1.5))
  }

  function ReadChannel(x: Channel, e: Entries): Channel {
    x.(
      inputFrequencyOffset := ReadS32(e, 1, 0),
      volume := DecodeVolume(ReadS32(e, 3, 30)),
      rgbColor := ReadU32(e, 5, 0),
      title := ReadString(e, 70, "WDSP Receiver"),
      audioDeviceName := ReadString(e, 71, DefaultAudioDeviceName),
      useReverseAPI := ReadBool(e, 72, false),
      reverseAPIAddress := ReadString(e, 73, "127.0.0.1"),
      reverseAPIPort := ClampPort(ReadU32(e, 74, 0)),
      reverseAPIDeviceIndex := ClampIndex(ReadU32(e, 75, 0)),
      reverseAPIChannelIndex := ClampIndex(ReadU32(e, 76, 0)),
      streamIndex := ReadS32(e, 77, 0),
      workspaceIndex := ReadS32(e, 79, 0),
      hidden := ReadBool(e, 81, false),
      profileIndex := ClampProfileIndex(ReadU32(e, 82, 0)))
  }

  /** The top-level reads of a version-1 archive: every section is read, an
      attached object reads its blob and the geometry bytes are replaced. */
  function ReadTop(s: Settings, e: Entries): Settings {
    s.(
      audio := ReadAudio(s.audio, e),
      agc := ReadAgc(s.agc, e),
      noiseBlanker := ReadNoiseBlanker(s.noiseBlanker, e),
      noiseReduction := ReadNoiseReduction(s.noiseReduction, e),
      demods := ReadDemods(s.demods, e),
      squelch := ReadSquelch(s.squelch, e),
      channel := ReadChannel(s.channel, e),
      geometryBytes := ReadBlob(e, 80),
      spectrumGui := if s.spectrumGui.Some? then Some(ReadBlob(e, 4)) else None,
      rollupState := if s.rollupState.Some? then Some(ReadBlob(e, 78)) else None)
  }

  /** The reads of profile block i, section by section. The profile's
      amFadeLevel and cwPeaking are not read (their tags are read into the
      top-level members, see DemodsAfter), and the three squelch times are
      read from the tags one below those they are written to. */
  function ReadProfile(p: Profile, e: Entries, i: int): Profile {
    var p := ReadProfileFilter(p, e, i);
    var p := ReadProfileAgc(p, e, i);
    var p := ReadProfileNoiseBlanker(p, e, i);
    var p := ReadProfileNoiseReduction(p, e, i);
    var p := ReadProfileDemods(p, e, i);
    ReadProfileSquelch(p, e, i)
  }

  /** The demodulation, spectrum span, cutoffs and FFT window reads of profile block i. */
  function ReadProfileFilter(p: Profile, e: Entries, i: int): Profile {
    p.(
      demod := ReadS32(e, 104 + 100 * i, 9),
      spanLog2 := ReadS32(e, 100 + 100 * i, 3),
      highCutoff := DecodeCutoff(ReadS32(e, 101 + 100 * i, 30)),
      lowCutoff := DecodeCutoff(ReadS32(e, 102 + 100 * i, 3)),
      fftWindow := ReadS32(e, 103 + 100 * i, 0))
  }

  /** The AGC reads of profile block i. */
  function ReadProfileAgc(p: Profile, e: Entries, i: int): Profile {
    p.(
      agc := ReadBool(e, 110 + 100 * i, true),
      agcMode := ReadS32(e, 111 + 100 * i, 2),
      agcGain := ReadS32(e, 112 + 100 * i, 80),
      agcSlope := ReadS32(e, 113 + 100 * i, 35),
      agcHangThreshold := ReadS32(e, 114 + 100 * i, 0))
  }

  /** The noise blanker reads of profile block i. */
  function ReadProfileNoiseBlanker(p: Profile, e: Entries, i: int): Profile {
    p.(
      dnb := ReadBool(e, 120 + 100 * i, false),
      nbScheme := ReadS32(e, 121 + 100 * i, 0),
      nb2Mode := ReadS32(e, 122 + 100 * i, 0),
      nbSlewTime := ReadDouble(e, 123 + 100 * i, 0.1),
      nbLeadTime := ReadDouble(e, 124 + 100 * i, 0.1),
      nbLagTime := ReadDouble(e, 125 + 100 * i, 0.1),
      nbThreshold := ReadS32(e, 126 + 100 * i, 30),
      nbAvgTime := ReadDouble(e, 127 + 100 * i, 50.0))
  }

  /** The noise reduction reads of profile block i. */
  function ReadProfileNoiseReduction(p: Profile, e: Entries, i: int): Profile {
    p.(
      dnr := ReadBool(e, 130 + 100 * i, false),
      anf := ReadBool(e, 132 + 100 * i, false),
      nrScheme := ReadS32(e, 133 + 100 * i, 0),
      nr2Gain := ReadS32(e, 134 + 100 * i, 0),
      nr2NPE := ReadS32(e, 135 + 100 * i, 0),
      nrPosition := ReadS32(e, 136 + 100 * i, 0),
      nr2ArtifactReduction := ReadBool(e, 137 + 100 * i, false))
  }

  /** The demods reads of profile block i. */
  function ReadProfileDemods(p: Profile, e: Entries, i: int): Profile {
    p.(
      cwPeakFrequency := ReadDouble(e, 142 + 100 * i, 600.0),
      cwBandwidth := ReadDouble(e, 143 + 100 * i, 100.0),
      cwGain := ReadDouble(e, 144 + 100 * i, 2.0),
      fmDeviation := ReadDouble(e, 145 + 100 * i, 2500.0),
      fmAFLow := ReadDouble(e, 146 + 100 * i, 300.0),
      fmAFHigh := ReadDouble(e, 147 + 100 * i, 3000.0),
      fmAFLimiter := ReadBool(e, 148 + 100 * i, false),
      fmAFLimiterGain := ReadDouble(e, 149 + 100 * i, 10.0),
      fmCTCSSNotch := ReadBool(e, 150 + 100 * i, false),
      fmCTCSSNotchFrequency := ReadDouble(e, 151 + 100 * i, 67.0))
  }

  /** The squelch reads of profile block i. */
  function ReadProfileSquelch(p: Profile, e: Entries, i: int): Profile {
    p.(
      squelch := ReadBool(e, 160 + 100 * i, false),
      squelchThreshold := ReadS32(e, 161 + 100 * i, 3),
      ssqlTauMute := ReadDouble(e, 161 + 100 * i, 0.1),
      ssqlTauUnmute := ReadDouble(e, 162 + 100 * i, 0.1),
      amsqMaxTail := ReadDouble(e, 163 + 100 * i, 1.5))
  }

  /** The profile loop of deserialize reads tags 140 and 141 of every block
      into the top-level amFadeLevel and cwPeaking, so after the first n
      iterations they hold the values of block n - 1. */
  function DemodsAfter(d: Demods, e: Entries, n: nat): Demods {
    if n == 0 then d
    else d.(amFadeLevel := ReadBool(e, 140 + 100 * (n - 1), false),
            cwPeaking := ReadBool(e, 141 + 100 * (n - 1), false))
  }

  /** After the first n iterations of the profile loop of deserialize,
      profile j has been read from block j exactly when j < n. */
  function ProfilesAfter(ps: seq<Profile>, e: Entries, n: nat): seq<Profile> {
    seq(|ps|, j requires 0 <= j < |ps| => if j < n then ReadProfile(ps[j], e, j) else ps[j])
  }

  /** One more iteration of the profile loop takes the flags of block n. */
  lemma DemodsAfterStep(d: Demods, e: Entries, n: nat)
    ensures DemodsAfter(d, e, n + 1) ==
      DemodsAfter(d, e, n).(amFadeLevel := ReadBool(e, 140 + 100 * n, false),
                            cwPeaking := ReadBool(e, 141 + 100 * n, false))
  {
  }

  /** One more iteration of the profile loop reads profile n from block n. */
  lemma ProfilesAfterStep(ps: seq<Profile>, e: Entries, n: nat)
    requires n < |ps|
    ensures ProfilesAfter(ps, e, n + 1) == ProfilesAfter(ps, e, n)[n := ReadProfile(ps[n], e, n)]
  {
  }

  /** deserialize: an invalid archive, or one of a version other than 1,
      resets the defaults and fails; a version-1 archive is read member by
      member. The result pairs the returned flag with the new state. */
  function Restore(s: Settings, a: Archive): (bool, Settings)
    requires |s.profiles| == ProfileCount
  {
    if a.Invalid? then (false, Reset(s))
    else if a.version == 1 then
      var t := ReadTop(s, a.entries);
      (true, t.(demods := DemodsAfter(t.demods, a.entries, ProfileCount),
                profiles := ProfilesAfter(t.profiles, a.entries, ProfileCount)))
    else (false, Reset(s))
  }

  /** One iteration of the profile loop of serialize. */
  method SerializeProfile(m0: Entries, i: int, p: Profile) returns (m: Entries)
    ensures m == WriteProfile(m0, i, p)
  {
    m := m0;
    m := m[104 + 100 * i := S32(p.demod)];
    m := m[100 + 100 * i := S32(p.spanLog2)];
    m := m[101 + 100 * i := S32(EncodeCutoff(p.highCutoff))];
    m := m[102 + 100 * i := S32(EncodeCutoff(p.lowCutoff))];
    m := m[103 + 100 * i := S32(p.fftWindow)];
    assert WriteProfileFrom(m, i, p, 1) == WriteProfile(m0, i, p);
    m := m[110 + 100 * i := Bool(p.agc)];
    m := m[111 + 100 * i := S32(p.agcMode)];
    m := m[112 + 100 * i := S32(p.agcGain)];
    m := m[113 + 100 * i := S32(p.agcSlope)];
    m := m[114 + 100 * i := S32(p.agcHangThreshold)];
    assert WriteProfileFrom(m, i, p, 2) == WriteProfile(m0, i, p);
    m := m[120 + 100 * i := Bool(p.dnb)];
    m := m[121 + 100 * i := S32(p.nbScheme)];
    m := m[122 + 100 * i := S32(p.nb2Mode)];
    m := m[123 + 100 * i := Double(p.nbSlewTime)];
    m := m[124 + 100 * i := Double(p.nbLeadTime)];
    m := m[125 + 100 * i := Double(p.nbLagTime)];
    m := m[126 + 100 * i := S32(p.nbThreshold)];
    m := m[127 + 100 * i := Double(p.nbAvgTime)];
    assert WriteProfileFrom(m, i, p, 3) == WriteProfile(m0, i, p);
    m := m[130 + 100 * i := Bool(p.dnr)];
    m := m[132 + 100 * i := Bool(p.anf)];
    m := m[133 + 100 * i := S32(p.nrScheme)];
    m := m[134 + 100 * i := S32(p.nr2Gain)];
    m := m[135 + 100 * i := S32(p.nr2NPE)];
    m := m[136 + 100 * i := S32(p.nrPosition)];
    m := m[137 + 100 * i := Bool(p.nr2ArtifactReduction)];
    assert WriteProfileFrom(m, i, p, 4) == WriteProfile(m0, i, p);
    m := m[140 + 100 * i := Bool(p.amFadeLevel)];
    m := m[141 + 100 * i := Bool(p.cwPeaking)];
    m := m[142 + 100 * i := Double(p.cwPeakFrequency)];
    m := m[143 + 100 * i := Double(p.cwBandwidth)];
    m := m[144 + 100 * i := Double(p.cwGain)];
    m := m[145 + 100 * i := Double(p.fmDeviation)];
    m := m[146 + 100 * i := Double(p.fmAFLow)];
    m := m[147 + 100 * i := Double(p.fmAFHigh)];
    m := m[148 + 100 * i := Bool(p.fmAFLimiter)];
    m := m[149 + 100 * i := Double(p.fmAFLimiterGain)];
    m := m[150 + 100 * i := Bool(p.fmCTCSSNotch)];
    m := m[151 + 100 * i := Double(p.fmCTCSSNotchFrequency)];
    assert WriteProfileFrom(m, i, p, 5) == WriteProfile(m0, i, p);
    m := m[160 + 100 * i := Bool(p.squelch)];
    m := m[161 + 100 * i := S32(p.squelchThreshold)];
    m := m[162 + 100 * i := Double(p.ssqlTauMute)];
    m := m[163 + 100 * i := Double(p.ssqlTauUnmute)];
    m := m[164 + 100 * i := Double(p.amsqMaxTail)];
  }

  /** The profile reads of one iteration of the profile loop of deserialize. */
  method DeserializeProfile(p0: Profile, e: Entries, i: int) returns (p: Profile)
    ensures p == ReadProfile(p0, e, i)
  {
    var demod := ReadS32(e, 104 + 100 * i, 9);
    var spanLog2 := ReadS32(e, 100 + 100 * i, 3);
    var highCutoff := DecodeCutoff(ReadS32(e, 101 + 100 * i, 30));
    var lowCutoff := DecodeCutoff(ReadS32(e, 102 + 100 * i, 3));
    var fftWindow := ReadS32(e, 103 + 100 * i, 0);
    var agc := ReadBool(e, 110 + 100 * i, true);
    var agcMode := ReadS32(e, 111 + 100 * i, 2);
    var agcGain := ReadS32(e, 112 + 100 * i, 80);
    var agcSlope := ReadS32(e, 113 + 100 * i, 35);
    var agcHangThreshold := ReadS32(e, 114 + 100 * i, 0);
    var dnb := ReadBool(e, 120 + 100 * i, false);
    var nbScheme := ReadS32(e, 121 + 100 * i, 0);
    var nb2Mode := ReadS32(e, 122 + 100 * i, 0);
    var nbSlewTime := ReadDouble(e, 123 + 100 * i, 0.1);
    var nbLeadTime := ReadDouble(e, 124 + 100 * i, 0.1);
    var nbLagTime := ReadDouble(e, 125 + 100 * i, 0.1);
    var nbThreshold := ReadS32(e, 126 + 100 * i, 30);
    var nbAvgTime := ReadDouble(e, 127 + 100 * i, 50.0);
    var dnr := ReadBool(e, 130 + 100 * i, false);
    var anf := ReadBool(e, 132 + 100 * i, false);
    var nrScheme := ReadS32(e, 133 + 100 * i, 0);
    var nr2Gain := ReadS32(e, 134 + 100 * i, 0);
    var nr2NPE := ReadS32(e, 135 + 100 * i, 0);
    var nrPosition := ReadS32(e, 136 + 100 * i, 0);
    var nr2ArtifactReduction := ReadBool(e, 137 + 100 * i, false);
    var cwPeakFrequency := ReadDouble(e, 142 + 100 * i, 600.0);
    var cwBandwidth := ReadDouble(e, 143 + 100 * i, 100.0);
    var cwGain := ReadDouble(e, 144 + 100 * i, 2.0);
    var fmDeviation := ReadDouble(e, 145 + 100 * i, 2500.0);
    var fmAFLow := ReadDouble(e, 146 + 100 * i, 300.0);
    var fmAFHigh := ReadDouble(e, 147 + 100 * i, 3000.0);
    var fmAFLimiter := ReadBool(e, 148 + 100 * i, false);
    var fmAFLimiterGain := ReadDouble(e, 149 + 100 * i, 10.0);
    var fmCTCSSNotch := ReadBool(e, 150 + 100 * i, false);
    var fmCTCSSNotchFrequency := ReadDouble(e, 151 + 100 * i, 67.0);
    var squelch := ReadBool(e, 160 + 100 * i, false);
    var squelchThreshold := ReadS32(e, 161 + 100 * i, 3);
    var ssqlTauMute := ReadDouble(e, 161 + 100 * i, 0.1);
    var ssqlTauUnmute := ReadDouble(e, 162 + 100 * i, 0.1);
    var amsqMaxTail := ReadDouble(e, 163 + 100 * i, 1.5);
    p := p0.(demod := demod, spanLog2 := spanLog2, highCutoff := highCutoff, lowCutoff := lowCutoff, fftWindow := fftWindow, agc := agc, agcMode := agcMode, agcGain := agcGain, agcSlope := agcSlope, agcHangThreshold := agcHangThreshold, dnb := dnb, nbScheme := nbScheme, nb2Mode := nb2Mode, nbSlewTime := nbSlewTime, nbLeadTime := nbLeadTime, nbLagTime := nbLagTime, nbThreshold := nbThreshold, nbAvgTime := nbAvgTime, dnr := dnr, anf := anf, nrScheme := nrScheme, nr2Gain := nr2Gain, nr2NPE := nr2NPE, nrPosition := nrPosition, nr2ArtifactReduction := nr2ArtifactReduction, cwPeakFrequency := cwPeakFrequency, cwBandwidth := cwBandwidth, cwGain := cwGain, fmDeviation := fmDeviation, fmAFLow := fmAFLow, fmAFHigh := fmAFHigh, fmAFLimiter := fmAFLimiter, fmAFLimiterGain := fmAFLimiterGain, fmCTCSSNotch := fmCTCSSNotch, fmCTCSSNotchFrequency := fmCTCSSNotchFrequency, squelch := squelch, squelchThreshold := squelchThreshold, ssqlTauMute := ssqlTauMute, ssqlTauUnmute := ssqlTauUnmute, amsqMaxTail := amsqMaxTail);
  }

  /** The reads of one section in a version-1 archive, in source order. */
  method DeserializeAudio(x0: Audio, e: Entries) returns (x: Audio)
    ensures x == ReadAudio(x0, e)
  {
    var demod := ReadS32(e, 2, 0);
    var audioBinaural := ReadBool(e, 8, false);
    var audioFlipChannels := ReadBool(e, 9, false);
    var dsb := ReadBool(e, 10, false);
    x := x0.(demod := demod, audioBinaural := audioBinaural, audioFlipChannels := audioFlipChannels, dsb := dsb);
  }

  method DeserializeAgc(x0: Agc, e: Entries) returns (x: Agc)
    ensures x == ReadAgc(x0, e)
  {
    var agc := ReadBool(e, 11, true);
    var agcMode := ReadS32(e, 12, 2);
    var agcGain := ReadS32(e, 13, 80);
    var agcSlope := ReadS32(e, 14, 35);
    var agcHangThreshold := ReadS32(e, 15, 0);
    x := x0.(agc := agc, agcMode := agcMode, agcGain := agcGain, agcSlope := agcSlope, agcHangThreshold := agcHangThreshold);
  }

  method DeserializeNoiseBlanker(x0: NoiseBlanker, e: Entries) returns (x: NoiseBlanker)
    ensures x == ReadNoiseBlanker(x0, e)
  {
    var dnb := ReadBool(e, 20, false);
    var nbScheme := ReadS32(e, 21, 2);
    var nb2Mode := ReadS32(e, 22, 2);
    var nbSlewTime := ReadDouble(e, 23, 0.1);
    var nbLeadTime := ReadDouble(e, 24, 0.1);
    var nbLagTime := ReadDouble(e, 25, 0.1);
    var nbThreshold := ReadS32(e, 26, 30);
    var nbAvgTime := ReadDouble(e, 27, 50.0);
    x := x0.(dnb := dnb, nbScheme := nbScheme, nb2Mode := nb2Mode, nbSlewTime := nbSlewTime, nbLeadTime := nbLeadTime, nbLagTime := nbLagTime, nbThreshold := nbThreshold, nbAvgTime := nbAvgTime);
  }

  method DeserializeNoiseReduction(x0: NoiseReduction, e: Entries) returns (x: NoiseReduction)
    ensures x == ReadNoiseReduction(x0, e)
  {
    var dnr := ReadBool(e, 30, false);
    var anf := ReadBool(e, 32, false);
    var nrScheme := ReadS32(e, 33, 2);
    var nr2Gain := ReadS32(e, 34, 2);
    var nr2NPE := ReadS32(e, 35, 2);
    var nrPosition := ReadS32(e, 36, 2);
    var nr2ArtifactReduction := ReadBool(e, 37, true);
    x := x0.(dnr := dnr, anf := anf, nrScheme := nrScheme, nr2Gain := nr2Gain, nr2NPE := nr2NPE, nrPosition := nrPosition, nr2ArtifactReduction := nr2ArtifactReduction);
  }

  method DeserializeDemods(x0: Demods, e: Entries) returns (x: Demods)
    ensures x == ReadDemods(x0, e)
  {
    var amFadeLevel := ReadBool(e, 40, false);
    var cwPeaking := ReadBool(e, 41, false);
    var cwPeakFrequency := ReadDouble(e, 42, 600.0);
    var cwBandwidth := ReadDouble(e, 43, 100.0);
    var cwGain := ReadDouble(e, 44, 2.0);
    var fmDeviation := ReadDouble(e, 45, 2500.0);
    var fmAFLow := ReadDouble(e, 46, 300.0);
    var fmAFHigh := ReadDouble(e, 47, 3000.0);
    var fmAFLimiter := ReadBool(e, 48, false);
    var fmAFLimiterGain := ReadDouble(e, 49, 10.0);
    var fmCTCSSNotch := ReadBool(e, 50, false);
    var fmCTCSSNotchFrequency := ReadDouble(e, 51, 67.0);
    x := x0.(amFadeLevel := amFadeLevel, cwPeaking := cwPeaking, cwPeakFrequency := cwPeakFrequency, cwBandwidth := cwBandwidth, cwGain := cwGain, fmDeviation := fmDeviation, fmAFLow := fmAFLow, fmAFHigh := fmAFHigh, fmAFLimiter := fmAFLimiter, fmAFLimiterGain := fmAFLimiterGain, fmCTCSSNotch := fmCTCSSNotch, fmCTCSSNotchFrequency := fmCTCSSNotchFrequency);
  }

  method DeserializeSquelch(x0: Squelch, e: Entries) returns (x: Squelch)
    ensures x == ReadSquelch(x0, e)
  {
    var squelch := ReadBool(e, 60, false);
    var squelchThreshold := ReadS32(e, 61, 3);
    var ssqlTauMute := ReadDouble(e, 62, 0.1);
    var ssqlTauUnmute := ReadDouble(e, 63, 0.1);
    var amsqMaxTail := ReadDouble(e, 64, 1.5);
    x := x0.(squelch := squelch, squelchThreshold := squelchThreshold, ssqlTauMute := ssqlTauMute, ssqlTauUnmute := ssqlTauUnmute, amsqMaxTail := amsqMaxTail);
  }

  method DeserializeChannel(x0: Channel, e: Entries) returns (x: Channel)
    ensures x == ReadChannel(x0, e)
  {
    var inputFrequencyOffset := ReadS32(e, 1, 0);
    var tmp := ReadS32(e, 3, 30);
    var volume := tmp as real / 10.0;
    var rgbColor := ReadU32(e, 5, 0);
    var title := ReadString(e, 70, "WDSP Receiver");
    var audioDeviceName := ReadString(e, 71, DefaultAudioDeviceName);
    var useReverseAPI := ReadBool(e, 72, false);
    var reverseAPIAddress := ReadString(e, 73, "127.0.0.1");
    var utmp := ReadU32(e, 74, 0);
    var reverseAPIPort: uint32;
      if 1023 < utmp < 65535 {
      reverseAPIPort := utmp;
    } else {
        reverseAPIPort := 8888;
  }
    utmp := ReadU32(e, 75, 0);
    var reverseAPIDeviceIndex := if utmp > 99 then 99 else utmp;
    utmp := ReadU32(e, 76, 0);
    var reverseAPIChannelIndex := if utmp > 99 then 99 else utmp;
    var streamIndex := ReadS32(e, 77, 0);
    var workspaceIndex := ReadS32(e, 79, 0);
    var hidden := ReadBool(e, 81, false);
    utmp := ReadU32(e, 82, 0);
    var profileIndex := if utmp < 10 then utmp else 0;
    x := x0.(inputFrequencyOffset := inputFrequencyOffset, volume := volume, rgbColor := rgbColor, title := title, audioDeviceName := audioDeviceName, useReverseAPI := useReverseAPI, reverseAPIAddress := reverseAPIAddress, reverseAPIPort := reverseAPIPort, reverseAPIDeviceIndex := reverseAPIDeviceIndex, reverseAPIChannelIndex := reverseAPIChannelIndex, streamIndex := streamIndex, workspaceIndex := workspaceIndex, hidden := hidden, profileIndex := profileIndex);
  }

  /** The top-level reads of deserialize, version 1: the attached objects
      read their blobs, then every section is read, then the geometry. */
  method DeserializeTop(s: Settings, e: Entries) returns (t: Settings)
    ensures t == ReadTop(s, e)
    ensures t.profiles == s.profiles
  {
    var spectrumGui := s.spectrumGui;
    if spectrumGui.Some? {
      spectrumGui := Some(ReadBlob(e, 4));
    }
    var audio := DeserializeAudio(s.audio, e);
    var agc := DeserializeAgc(s.agc, e);
    var noiseBlanker := DeserializeNoiseBlanker(s.noiseBlanker, e);
    var noiseReduction := DeserializeNoiseReduction(s.noiseReduction, e);
    var demods := DeserializeDemods(s.demods, e);
    var squelch := DeserializeSquelch(s.squelch, e);
    var channel := DeserializeChannel(s.channel, e);
    var rollupState := s.rollupState;
    if rollupState.Some? {
      rollupState := Some(ReadBlob(e, 78));
    }
    var geometryBytes := ReadBlob(e, 80);
    t := s.(audio := audio, agc := agc, noiseBlanker := noiseBlanker, noiseReduction := noiseReduction, demods := demods, squelch := squelch, channel := channel, geometryBytes := geometryBytes, spectrumGui := spectrumGui, rollupState := rollupState);
  }

  // ---------------------------------------------------------------------
  // The settings object
  // ---------------------------------------------------------------------

  class WDSPRxSettings {
    var audio: Audio
    var agc: Agc
    var noiseBlanker: NoiseBlanker
    var noiseReduction: NoiseReduction
    var demods: Demods
    var squelch: Squelch
    var channel: Channel
    var geometryBytes: seq<byte>
    var profiles: seq<Profile>
    var spectrumGui: Option<seq<byte>>
    var rollupState: Option<seq<byte>>

    predicate Valid()
      reads this
    {
      |profiles| == ProfileCount
    }

    /** The object's state as a value. */
    function Snapshot(): Settings
      reads this
    {
      Settings(audio, agc, noiseBlanker, noiseReduction, demods, squelch, channel,
               geometryBytes, profiles, spectrumGui, rollupState)
    }

    /** Ten copies of the default profile, no attachments, empty geometry,
        then resetToDefaults. */
    constructor(defaultProfile: Profile)
      ensures Valid()
      ensures Snapshot() == Reset(Settings(DefaultAudio, DefaultAgc, DefaultNoiseBlanker, DefaultNoiseReduction, DefaultDemods, DefaultSquelch, DefaultChannel,
                                          [], seq(ProfileCount, _ => defaultProfile), None, None))
    {
      geometryBytes := [];
      profiles := seq(ProfileCount, _ => defaultProfile);
      spectrumGui := None;
      rollupState := None;
      new;
      ResetToDefaults();
    }

    method ResetToDefaults()
      modifies this
      ensures Snapshot() == Reset(old(Snapshot()))
    {
      audio := audio.(demod := DemodSSB, audioBinaural := false, audioFlipChannels := false, dsb := false, audioMute := false);
      agc := agc.(agc := false, agcMode := AGCMedium, agcGain := 80, agcSlope := 35, agcHangThreshold := 0);
      noiseBlanker := noiseBlanker.(dnb := false, nbScheme := NBSchemeNB, nb2Mode := NB2ModeZero, nbSlewTime := 0.1, nbLeadTime := 0.1, nbLagTime := 0.1, nbThreshold := 30, nbAvgTime := 50.0);
      noiseReduction := noiseReduction.(dnr := false, anf := false, nrScheme := NRSchemeNR, nr2Gain := NR2GainGamma, nr2NPE := NR2NPEOSMS, nrPosition := NRPositionPreAGC, nr2ArtifactReduction := true);
      demods := demods.(amFadeLevel := false, cwPeaking := false, cwPeakFrequency := 600.0, cwBandwidth := 100.0, cwGain := 2.0, fmDeviation := 2500.0, fmAFLow := 300.0, fmAFHigh := 3000.0, fmAFLimiter := false, fmAFLimiterGain := 10.0, fmCTCSSNotch := false, fmCTCSSNotchFrequency := 67.0);
      squelch := squelch.(squelch := false, squelchThreshold := 3, squelchMode := SquelchModeVoice, ssqlTauMute := 0.1, ssqlTauUnmute := 0.1, amsqMaxTail := 1.5);
      channel := channel.(volume := 1.0, inputFrequencyOffset := 0, rgbColor := DefaultRgbColor, title := "WDSP Receiver", audioDeviceName := DefaultAudioDeviceName, streamIndex := 0, useReverseAPI := false, reverseAPIAddress := "127.0.0.1", reverseAPIPort := 8888, reverseAPIDeviceIndex := 0, reverseAPIChannelIndex := 0, workspaceIndex := 0, hidden := false, profileIndex := 0);
    }

    method Serialize() returns (a: Archive)
      requires Valid()
      ensures a == Encode(Snapshot())
    {
      var m: Entries := map[];
      m := SerializeHead(m);
      assert WriteTopFrom(m, Snapshot(), 1) == TopEntries(Snapshot());
      m := SerializeAudio(m);
      assert WriteTopFrom(m, Snapshot(), 2) == TopEntries(Snapshot());
      m := SerializeAgc(m);
      assert WriteTopFrom(m, Snapshot(), 3) == TopEntries(Snapshot());
      m := SerializeNoiseBlanker(m);
      assert WriteTopFrom(m, Snapshot(), 4) == TopEntries(Snapshot());
      m := SerializeNoiseReduction(m);
      assert WriteTopFrom(m, Snapshot(), 5) == TopEntries(Snapshot());
      m := SerializeDemods(m);
      assert WriteTopFrom(m, Snapshot(), 6) == TopEntries(Snapshot());
      m := SerializeSquelch(m);
      assert WriteTopFrom(m, Snapshot(), 7) == TopEntries(Snapshot());
      m := SerializeTail(m);
      var i := 0;
      while i < ProfileCount
        invariant 0 <= i <= ProfileCount
        invariant WriteProfilesFrom(m, profiles, i) == WriteProfilesFrom(TopEntries(Snapshot()), profiles, 0)
      {
        m := SerializeProfile(m, i, profiles[i]);
        i := i + 1;
      }
      a := Archive(1, m);
    }

    method SerializeHead(m0: Entries) returns (m: Entries)
      ensures m == WriteHead(m0, Snapshot())
    {
      m := m0;
      m := m[1 := S32(channel.inputFrequencyOffset)];
      m := m[2 := S32(audio.demod)];
      m := m[3 := S32(EncodeVolume(channel.volume))];
      if spectrumGui.Some? {
        m := m[4 := Blob(spectrumGui.value)];
      }
      m := m[5 := U32(channel.rgbColor)];
    }

    method SerializeAudio(m0: Entries) returns (m: Entries)
      ensures m == WriteAudio(m0, Snapshot())
    {
      m := m0;
      m := m[8 := Bool(audio.audioBinaural)];
      m := m[9 := Bool(audio.audioFlipChannels)];
      m := m[10 := Bool(audio.dsb)];
    }

    method SerializeAgc(m0: Entries) returns (m: Entries)
      ensures m == WriteAgc(m0, Snapshot())
    {
      m := m0;
      m := m[11 := Bool(agc.agc)];
      m := m[12 := S32(agc.agcMode)];
      m := m[13 := S32(agc.agcGain)];
      m := m[14 := S32(agc.agcSlope)];
      m := m[15 := S32(agc.agcHangThreshold)];
    }

    method SerializeNoiseBlanker(m0: Entries) returns (m: Entries)
      ensures m == WriteNoiseBlanker(m0, Snapshot())
    {
      m := m0;
      m := m[20 := Bool(noiseBlanker.dnb)];
      m := m[21 := S32(noiseBlanker.nbScheme)];
      m := m[22 := S32(noiseBlanker.nb2Mode)];
      m := m[23 := Double(noiseBlanker.nbSlewTime)];
      m := m[24 := Double(noiseBlanker.nbLeadTime)];
      m := m[25 := Double(noiseBlanker.nbLagTime)];
      m := m[26 := S32(noiseBlanker.nbThreshold)];
      m := m[27 := Double(noiseBlanker.nbAvgTime)];
    }

    method SerializeNoiseReduction(m0: Entries) returns (m: Entries)
      ensures m == WriteNoiseReduction(m0, Snapshot())
    {
      m := m0;
      m := m[30 := Bool(noiseReduction.dnr)];
      m := m[32 := Bool(noiseReduction.anf)];
      m := m[33 := S32(noiseReduction.nrScheme)];
      m := m[34 := S32(noiseReduction.nr2Gain)];
      m := m[35 := S32(noiseReduction.nr2NPE)];
      m := m[36 := S32(noiseReduction.nrPosition)];
      m := m[37 := Bool(noiseReduction.nr2ArtifactReduction)];
    }

    method SerializeDemods(m0: Entries) returns (m: Entries)
      ensures m == WriteDemods(m0, Snapshot())
    {
      m := m0;
      m := m[40 := Bool(demods.amFadeLevel)];
      m := m[41 := Bool(demods.cwPeaking)];
      m := m[42 := Double(demods.cwPeakFrequency)];
      m := m[43 := Double(demods.cwBandwidth)];
      m := m[44 := Double(demods.cwGain)];
      m := m[45 := Double(demods.fmDeviation)];
      m := m[46 := Double(demods.fmAFLow)];
      m := m[47 := Double(demods.fmAFHigh)];
      m := m[48 := Bool(demods.fmAFLimiter)];
      m := m[49 := Double(demods.fmAFLimiterGain)];
      m := m[50 := Bool(demods.fmCTCSSNotch)];
      m := m[51 := Double(demods.fmCTCSSNotchFrequency)];
    }

    method SerializeSquelch(m0: Entries) returns (m: Entries)
      ensures m == WriteSquelch(m0, Snapshot())
    {
      m := m0;
      m := m[60 := Bool(squelch.squelch)];
      m := m[61 := S32(squelch.squelchThreshold)];
      m := m[62 := Double(squelch.ssqlTauMute)];
      m := m[63 := Double(squelch.ssqlTauUnmute)];
      m := m[64 := Double(squelch.amsqMaxTail)];
    }

    method SerializeTail(m0: Entries) returns (m: Entries)
      ensures m == WriteTail(m0, Snapshot())
    {
      m := m0;
      m := m[70 := Str(channel.title)];
      m := m[71 := Str(channel.audioDeviceName)];
      m := m[72 := Bool(channel.useReverseAPI)];
      m := m[73 := Str(channel.reverseAPIAddress)];
      m := m[74 := U32(channel.reverseAPIPort)];
      m := m[75 := U32(channel.reverseAPIDeviceIndex)];
      m := m[76 := U32(channel.reverseAPIChannelIndex)];
      m := m[77 := S32(channel.streamIndex)];
      if rollupState.Some? {
        m := m[78 := Blob(rollupState.value)];
      }
      m := m[79 := S32(channel.workspaceIndex)];
      m := m[80 := Blob(geometryBytes)];
      m := m[81 := Bool(channel.hidden)];
      m := m[82 := U32(channel.profileIndex)];
    }

    method Deserialize(a: Archive) returns (ok: bool)
      requires Valid()
      modifies this
      ensures Valid()
      ensures (ok, Snapshot()) == Restore(old(Snapshot()), a)
    {
      if a.Invalid? {
        ResetToDefaults();
        return false;
      }
      if a.version != 1 {
        ResetToDefaults();
        return false;
      }
      ReadTopLevel(a.entries);
      ReadProfileBlocks(a.entries);
      return true;
    }

    /** The top-level reads of deserialize, version 1, stored back into the members. */
    method ReadTopLevel(e: Entries)
      modifies this
      ensures Snapshot() == ReadTop(old(Snapshot()), e)
    {
      var t := DeserializeTop(Snapshot(), e);
      StoreTopLevel(t);
    }

    /** Stores every member of t except the profile list. */
    method StoreTopLevel(t: Settings)
      modifies this
      ensures Snapshot() == t.(profiles := old(profiles))
    {
      audio, agc, noiseBlanker, noiseReduction, demods, squelch, channel, geometryBytes, spectrumGui, rollupState :=
        t.audio, t.agc, t.noiseBlanker, t.noiseReduction, t.demods, t.squelch, t.channel, t.geometryBytes, t.spectrumGui, t.rollupState;
    }

    /** The profile loop of deserialize. It also writes the top-level
        amFadeLevel and cwPeaking, so it works on copies of the profile list
        and of the demods section and stores them back afterwards. */
    method ReadProfileBlocks(e: Entries)
      requires Valid()
      modifies this
      ensures Snapshot() == old(Snapshot()).(demods := DemodsAfter(old(demods), e, ProfileCount),
                                             profiles := ProfilesAfter(old(profiles), e, ProfileCount))
    {
      ghost var read := Snapshot();
      var dm := demods;
      var ps := profiles;
      var i := 0;
      while i < ProfileCount
        invariant 0 <= i <= ProfileCount
        invariant dm == DemodsAfter(read.demods, e, i)
        invariant ps == ProfilesAfter(read.profiles, e, i)
        modifies {}
      {
        var amFadeLevel := ReadBool(e, 140 + 100 * i, false);
        var cwPeaking := ReadBool(e, 141 + 100 * i, false);
        DemodsAfterStep(read.demods, e, i);
        dm := dm.(amFadeLevel := amFadeLevel, cwPeaking := cwPeaking);
        ProfilesAfterStep(read.profiles, e, i);
        var p := DeserializeProfile(ps[i], e, i);
        ps := ps[i := p];
        i := i + 1;
      }
      profiles := ps;
      demods := dm;
    }
  }
}
