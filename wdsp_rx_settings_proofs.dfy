/** Properties of the WDSP receiver settings codec: the tag table that
    serialize fills, the scaled encodings of the volume and the cutoffs, the
    error path of deserialize, and what a serialize followed by a
    deserialize gives back. */
module WdspRxSettingsProofs {
  import opened SettingsStore
  import opened WdspRxSettings

  /** The element a later write leaves at a tag: its own when it has one,
      else the one already there. */
  function Overlay(later: Option<Value>, earlier: Option<Value>): Option<Value> {
    if later.Some? then later else earlier
  }

  // ---------------------------------------------------------------------
  // The tag table of a profile block, by offset
  // ---------------------------------------------------------------------

  /** The filter elements of a profile block, by offset. */
  function ProfileFilterValue(p: Profile, off: int): Option<Value> {
    if off == 4 then Some(S32(p.demod))
    else if off == 0 then Some(S32(p.spanLog2))
    else if off == 1 then Some(S32(EncodeCutoff(p.highCutoff)))
    else if off == 2 then Some(S32(EncodeCutoff(p.lowCutoff)))
    else if off == 3 then Some(S32(p.fftWindow))
    else None
  }

  /** The AGC elements of a profile block, by offset. */
  function ProfileAgcValue(p: Profile, off: int): Option<Value> {
    if off == 10 then Some(Bool(p.agc))
    else if off == 11 then Some(S32(p.agcMode))
    else if off == 12 then Some(S32(p.agcGain))
    else if off == 13 then Some(S32(p.agcSlope))
    else if off == 14 then Some(S32(p.agcHangThreshold))
    else None
  }

  /** The noise blanker elements of a profile block, by offset. */
  function ProfileNoiseBlankerValue(p: Profile, off: int): Option<Value> {
    if off == 20 then Some(Bool(p.dnb))
    else if off == 21 then Some(S32(p.nbScheme))
    else if off == 22 then Some(S32(p.nb2Mode))
    else if off == 23 then Some(Double(p.nbSlewTime))
    else if off == 24 then Some(Double(p.nbLeadTime))
    else if off == 25 then Some(Double(p.nbLagTime))
    else if off == 26 then Some(S32(p.nbThreshold))
    else if off == 27 then Some(Double(p.nbAvgTime))
    else None
  }

  /** The noise reduction elements of a profile block, by offset. */
  function ProfileNoiseReductionValue(p: Profile, off: int): Option<Value> {
    if off == 30 then Some(Bool(p.dnr))
    else if off == 32 then Some(Bool(p.anf))
    else if off == 33 then Some(S32(p.nrScheme))
    else if off == 34 then Some(S32(p.nr2Gain))
    else if off == 35 then Some(S32(p.nr2NPE))
    else if off == 36 then Some(S32(p.nrPosition))
    else if off == 37 then Some(Bool(p.nr2ArtifactReduction))
    else None
  }

  /** The demods elements of a profile block, by offset. */
  function ProfileDemodsValue(p: Profile, off: int): Option<Value> {
    if off == 40 then Some(Bool(p.amFadeLevel))
    else if off == 41 then Some(Bool(p.cwPeaking))
    else if off == 42 then Some(Double(p.cwPeakFrequency))
    else if off == 43 then Some(Double(p.cwBandwidth))
    else if off == 44 then Some(Double(p.cwGain))
    else if off == 45 then Some(Double(p.fmDeviation))
    else if off == 46 then Some(Double(p.fmAFLow))
    else if off == 47 then Some(Double(p.fmAFHigh))
    else if off == 48 then Some(Bool(p.fmAFLimiter))
    else if off == 49 then Some(Double(p.fmAFLimiterGain))
    else if off == 50 then Some(Bool(p.fmCTCSSNotch))
    else if off == 51 then Some(Double(p.fmCTCSSNotchFrequency))
    else None
  }

  /** The squelch elements of a profile block, by offset. */
  function ProfileSquelchValue(p: Profile, off: int): Option<Value> {
    if off == 60 then Some(Bool(p.squelch))
    else if off == 61 then Some(S32(p.squelchThreshold))
    else if off == 62 then Some(Double(p.ssqlTauMute))
    else if off == 63 then Some(Double(p.ssqlTauUnmute))
    else if off == 64 then Some(Double(p.amsqMaxTail))
    else None
  }

  /** The element a profile block holds at offset off, if any: the
      sections occupy the offsets 0-9, 10-19, 20-29, 30-39, 40-59 and
      60-64. */
  function ProfileValue(p: Profile, off: int): Option<Value> {
    if off < 0 then None
    else if off < 10 then ProfileFilterValue(p, off)
    else if off < 20 then ProfileAgcValue(p, off)
    else if off < 30 then ProfileNoiseBlankerValue(p, off)
    else if off < 40 then ProfileNoiseReductionValue(p, off)
    else if off < 60 then ProfileDemodsValue(p, off)
    else ProfileSquelchValue(p, off)
  }

  /** The first offset of section k of a profile block. */
  function ProfileSectionStart(k: nat): int {
    if k == 0 then 0
    else if k == 1 then 10
    else if k == 2 then 20
    else if k == 3 then 30
    else if k == 4 then 40
    else if k == 5 then 60
    else 65
  }

  /** The table of section k alone. */
  function ProfileSectionValue(p: Profile, k: nat, off: int): Option<Value> {
    if k == 0 then ProfileFilterValue(p, off)
    else if k == 1 then ProfileAgcValue(p, off)
    else if k == 2 then ProfileNoiseBlankerValue(p, off)
    else if k == 3 then ProfileNoiseReductionValue(p, off)
    else if k == 4 then ProfileDemodsValue(p, off)
    else ProfileSquelchValue(p, off)
  }

  /** Section k's table is the block's table restricted to the section's offsets. */
  lemma ProfileSectionValueIn(p: Profile, k: nat, off: int)
    requires k < ProfileSectionCount
    ensures ProfileSectionValue(p, k, off) ==
      if ProfileSectionStart(k) <= off < ProfileSectionStart(k + 1) then ProfileValue(p, off) else None
  {
  }

  /** Every element of a profile block lies at an offset 0 .. 64. */
  lemma ProfileValueRange(p: Profile, off: int)
    ensures ProfileValue(p, off).Some? ==> 0 <= off < 65
  {
  }

  lemma WriteProfileFilterLookup(m: Entries, i: int, p: Profile, t: int)
    ensures Lookup(WriteProfileFilter(m, i, p), t) == Overlay(ProfileFilterValue(p, t - 100 - 100 * i), Lookup(m, t))
  {
  }

  lemma WriteProfileAgcLookup(m: Entries, i: int, p: Profile, t: int)
    ensures Lookup(WriteProfileAgc(m, i, p), t) == Overlay(ProfileAgcValue(p, t - 100 - 100 * i), Lookup(m, t))
  {
  }

  lemma WriteProfileNoiseBlankerLookup(m: Entries, i: int, p: Profile, t: int)
    ensures Lookup(WriteProfileNoiseBlanker(m, i, p), t) == Overlay(ProfileNoiseBlankerValue(p, t - 100 - 100 * i), Lookup(m, t))
  {
  }

  lemma WriteProfileNoiseReductionLookup(m: Entries, i: int, p: Profile, t: int)
    ensures Lookup(WriteProfileNoiseReduction(m, i, p), t) == Overlay(ProfileNoiseReductionValue(p, t - 100 - 100 * i), Lookup(m, t))
  {
  }

  lemma WriteProfileDemodsLookup(m: Entries, i: int, p: Profile, t: int)
    ensures Lookup(WriteProfileDemods(m, i, p), t) == Overlay(ProfileDemodsValue(p, t - 100 - 100 * i), Lookup(m, t))
  {
  }

  lemma WriteProfileSquelchLookup(m: Entries, i: int, p: Profile, t: int)
    ensures Lookup(WriteProfileSquelch(m, i, p), t) == Overlay(ProfileSquelchValue(p, t - 100 - 100 * i), Lookup(m, t))
  {
  }

  /** The table from section k on is section k's table under the table
      from section k + 1 on. */
  lemma ProfileValueFromStep(p: Profile, k: nat, off: int)
    requires k < ProfileSectionCount
    ensures (if off >= ProfileSectionStart(k) then ProfileValue(p, off) else None) ==
      Overlay(if off >= ProfileSectionStart(k + 1) then ProfileValue(p, off) else None,
              ProfileSectionValue(p, k, off))
  {
    ProfileSectionValueIn(p, k, off);
  }

  /** Section k of block i puts the section's table at 100 * (i + 1). */
  lemma WriteProfileSectionLookup(m: Entries, i: int, p: Profile, k: nat, t: int)
    requires k < ProfileSectionCount
    ensures Lookup(WriteProfileSection(m, i, p, k), t) ==
      Overlay(ProfileSectionValue(p, k, t - 100 - 100 * i), Lookup(m, t))
  {
    if k == 0 {
      WriteProfileFilterLookup(m, i, p, t);
    }     else if k == 1 {
      WriteProfileAgcLookup(m, i, p, t);
    }     else if k == 2 {
      WriteProfileNoiseBlankerLookup(m, i, p, t);
    }     else if k == 3 {
      WriteProfileNoiseReductionLookup(m, i, p, t);
    }     else if k == 4 {
      WriteProfileDemodsLookup(m, i, p, t);
    } else {
      WriteProfileSquelchLookup(m, i, p, t);
    }
  }

  /** Sections k.. of block i put the table's offsets from section k on. */
  lemma {:induction false} WriteProfileFromLookup(m: Entries, i: int, p: Profile, k: nat, t: int)
    requires k <= ProfileSectionCount
    ensures Lookup(WriteProfileFrom(m, i, p, k), t) ==
      Overlay(if t - 100 - 100 * i >= ProfileSectionStart(k) then ProfileValue(p, t - 100 - 100 * i) else None,
              Lookup(m, t))
    decreases ProfileSectionCount - k
  {
    var off := t - 100 - 100 * i;
    if k < ProfileSectionCount {
      var m' := WriteProfileSection(m, i, p, k);
      WriteProfileSectionLookup(m, i, p, k, t);
      WriteProfileFromLookup(m', i, p, k + 1, t);
      ProfileValueFromStep(p, k, off);
    } else {
      ProfileValueRange(p, off);
    }
  }

  /** Block i holds profile p's table at the tags 100 * (i + 1) + offset,
      and leaves every other tag as it was. */
  lemma WriteProfileLookup(m: Entries, i: int, p: Profile, t: int)
    ensures Lookup(WriteProfile(m, i, p), t) == Overlay(ProfileValue(p, t - 100 - 100 * i), Lookup(m, t))
  {
    WriteProfileFromLookup(m, i, p, 0, t);
  }

  /** The element blocks k, k + 1, ... hold at tag t, if any: block j
      holds profile j's table from tag 100 * (j + 1) on. */
  function ProfilesValue(ps: seq<Profile>, k: nat, t: int): Option<Value>
    decreases |ps| - k
  {
    if k >= |ps| then None
    else Overlay(ProfilesValue(ps, k + 1, t), ProfileValue(ps[k], t - 100 - 100 * k))
  }

  /** Blocks k.. hold their profiles' tables over m. */
  lemma {:induction false} WriteProfilesFromLookup(m: Entries, ps: seq<Profile>, k: nat, t: int)
    ensures Lookup(WriteProfilesFrom(m, ps, k), t) == Overlay(ProfilesValue(ps, k, t), Lookup(m, t))
    decreases |ps| - k
  {
    if k < |ps| {
      WriteProfileLookup(m, k, ps[k], t);
      WriteProfilesFromLookup(WriteProfile(m, k, ps[k]), ps, k + 1, t);
    }
  }

  /** Blocks k.. hold nothing below tag 100 * (k + 1). */
  lemma {:induction false} ProfilesValueBelow(ps: seq<Profile>, k: nat, t: int)
    requires t < 100 * (k + 1)
    ensures ProfilesValue(ps, k, t) == None
    decreases |ps| - k
  {
    if k < |ps| {
      ProfileValueRange(ps[k], t - 100 - 100 * k);
      ProfilesValueBelow(ps, k + 1, t);
    }
  }

  /** Offset off of block j holds profile j's element at that offset. */
  lemma {:induction false} ProfilesValueAt(ps: seq<Profile>, k: nat, j: nat, off: int)
    requires k <= j < |ps| && 0 <= off < 65
    ensures ProfilesValue(ps, k, 100 * (j + 1) + off) == ProfileValue(ps[j], off)
    decreases j - k
  {
    var t := 100 * (j + 1) + off;
    if k < j {
      ProfilesValueAt(ps, k + 1, j, off);
      ProfileValueRange(ps[k], t - 100 - 100 * k);
    } else {
      assert t - 100 - 100 * k == off;
      ProfilesValueBelow(ps, k + 1, t);
    }
  }

  /** Blocks k.. hold elements only at tags 100 * (j + 1) + offset with
      k <= j < |ps| and offset 0 .. 64. */
  lemma {:induction false} ProfilesValueRange(ps: seq<Profile>, k: nat, t: int)
    ensures ProfilesValue(ps, k, t).Some? ==> 100 * (k + 1) <= t < 100 * |ps| + 65 && t % 100 < 65
    decreases |ps| - k
  {
    if k < |ps| {
      ProfileValueRange(ps[k], t - 100 - 100 * k);
      ProfilesValueRange(ps, k + 1, t);
      if ProfileValue(ps[k], t - 100 - 100 * k).Some? {
        BlockOffset(t, k);
      }
    }
  }

  /** A tag 100 * (j + 1) + offset with offset 0 .. 64 has that remainder modulo 100. */
  lemma BlockOffset(t: int, j: int)
    requires 100 * (j + 1) <= t < 100 * (j + 1) + 65
    ensures t % 100 == t - 100 * (j + 1) < 65
  {
  }

  // ---------------------------------------------------------------------
  // The tag table of the top-level elements
  // ---------------------------------------------------------------------

  /** The top-level head elements, by tag. */
  function HeadValue(s: Settings, t: int): Option<Value> {
    if t == 1 then Some(S32(s.channel.inputFrequencyOffset))
    else if t == 2 then Some(S32(s.audio.demod))
    else if t == 3 then Some(S32(EncodeVolume(s.channel.volume)))
    else if t == 4 then if s.spectrumGui.Some? then Some(Blob(s.spectrumGui.value)) else None
    else if t == 5 then Some(U32(s.channel.rgbColor))
    else None
  }

  /** The top-level audio elements, by tag. */
  function AudioValue(s: Settings, t: int): Option<Value> {
    if t == 8 then Some(Bool(s.audio.audioBinaural))
    else if t == 9 then Some(Bool(s.audio.audioFlipChannels))
    else if t == 10 then Some(Bool(s.audio.dsb))
    else None
  }

  /** The top-level AGC elements, by tag. */
  function AgcValue(s: Settings, t: int): Option<Value> {
    if t == 11 then Some(Bool(s.agc.agc))
    else if t == 12 then Some(S32(s.agc.agcMode))
    else if t == 13 then Some(S32(s.agc.agcGain))
    else if t == 14 then Some(S32(s.agc.agcSlope))
    else if t == 15 then Some(S32(s.agc.agcHangThreshold))
    else None
  }

  /** The top-level noise blanker elements, by tag. */
  function NoiseBlankerValue(s: Settings, t: int): Option<Value> {
    if t == 20 then Some(Bool(s.noiseBlanker.dnb))
    else if t == 21 then Some(S32(s.noiseBlanker.nbScheme))
    else if t == 22 then Some(S32(s.noiseBlanker.nb2Mode))
    else if t == 23 then Some(Double(s.noiseBlanker.nbSlewTime))
    else if t == 24 then Some(Double(s.noiseBlanker.nbLeadTime))
    else if t == 25 then Some(Double(s.noiseBlanker.nbLagTime))
    else if t == 26 then Some(S32(s.noiseBlanker.nbThreshold))
    else if t == 27 then Some(Double(s.noiseBlanker.nbAvgTime))
    else None
  }

  /** The top-level noise reduction elements, by tag. */
  function NoiseReductionValue(s: Settings, t: int): Option<Value> {
    if t == 30 then Some(Bool(s.noiseReduction.dnr))
    else if t == 32 then Some(Bool(s.noiseReduction.anf))
    else if t == 33 then Some(S32(s.noiseReduction.nrScheme))
    else if t == 34 then Some(S32(s.noiseReduction.nr2Gain))
    else if t == 35 then Some(S32(s.noiseReduction.nr2NPE))
    else if t == 36 then Some(S32(s.noiseReduction.nrPosition))
    else if t == 37 then Some(Bool(s.noiseReduction.nr2ArtifactReduction))
    else None
  }

  /** The top-level demods elements, by tag. */
  function DemodsValue(s: Settings, t: int): Option<Value> {
    if t == 40 then Some(Bool(s.demods.amFadeLevel))
    else if t == 41 then Some(Bool(s.demods.cwPeaking))
    else if t == 42 then Some(Double(s.demods.cwPeakFrequency))
    else if t == 43 then Some(Double(s.demods.cwBandwidth))
    else if t == 44 then Some(Double(s.demods.cwGain))
    else if t == 45 then Some(Double(s.demods.fmDeviation))
    else if t == 46 then Some(Double(s.demods.fmAFLow))
    else if t == 47 then Some(Double(s.demods.fmAFHigh))
    else if t == 48 then Some(Bool(s.demods.fmAFLimiter))
    else if t == 49 then Some(Double(s.demods.fmAFLimiterGain))
    else if t == 50 then Some(Bool(s.demods.fmCTCSSNotch))
    else if t == 51 then Some(Double(s.demods.fmCTCSSNotchFrequency))
    else None
  }

  /** The top-level squelch elements, by tag. */
  function SquelchValue(s: Settings, t: int): Option<Value> {
    if t == 60 then Some(Bool(s.squelch.squelch))
    else if t == 61 then Some(S32(s.squelch.squelchThreshold))
    else if t == 62 then Some(Double(s.squelch.ssqlTauMute))
    else if t == 63 then Some(Double(s.squelch.ssqlTauUnmute))
    else if t == 64 then Some(Double(s.squelch.amsqMaxTail))
    else None
  }

  /** The top-level tail elements, by tag. */
  function TailValue(s: Settings, t: int): Option<Value> {
    if t == 70 then Some(Str(s.channel.title))
    else if t == 71 then Some(Str(s.channel.audioDeviceName))
    else if t == 72 then Some(Bool(s.channel.useReverseAPI))
    else if t == 73 then Some(Str(s.channel.reverseAPIAddress))
    else if t == 74 then Some(U32(s.channel.reverseAPIPort))
    else if t == 75 then Some(U32(s.channel.reverseAPIDeviceIndex))
    else if t == 76 then Some(U32(s.channel.reverseAPIChannelIndex))
    else if t == 77 then Some(S32(s.channel.streamIndex))
    else if t == 78 then if s.rollupState.Some? then Some(Blob(s.rollupState.value)) else None
    else if t == 79 then Some(S32(s.channel.workspaceIndex))
    else if t == 80 then Some(Blob(s.geometryBytes))
    else if t == 81 then Some(Bool(s.channel.hidden))
    else if t == 82 then Some(U32(s.channel.profileIndex))
    else None
  }

  /** The top-level element at tag t, if any: the sections occupy the tags
      1-7, 8-10, 11-19, 20-29, 30-39, 40-59, 60-69 and 70-82. */
  function TopValue(s: Settings, t: int): Option<Value> {
    if t < 1 then None
    else if t < 8 then HeadValue(s, t)
    else if t < 11 then AudioValue(s, t)
    else if t < 20 then AgcValue(s, t)
    else if t < 30 then NoiseBlankerValue(s, t)
    else if t < 40 then NoiseReductionValue(s, t)
    else if t < 60 then DemodsValue(s, t)
    else if t < 70 then SquelchValue(s, t)
    else TailValue(s, t)
  }

  /** The first tag of top-level section k. */
  function TopSectionStart(k: nat): int {
    if k == 0 then 1
    else if k == 1 then 8
    else if k == 2 then 11
    else if k == 3 then 20
    else if k == 4 then 30
    else if k == 5 then 40
    else if k == 6 then 60
    else if k == 7 then 70
    else 83
  }

  /** The table of top-level section k alone. */
  function TopSectionValue(s: Settings, k: nat, t: int): Option<Value> {
    if k == 0 then HeadValue(s, t)
    else if k == 1 then AudioValue(s, t)
    else if k == 2 then AgcValue(s, t)
    else if k == 3 then NoiseBlankerValue(s, t)
    else if k == 4 then NoiseReductionValue(s, t)
    else if k == 5 then DemodsValue(s, t)
    else if k == 6 then SquelchValue(s, t)
    else TailValue(s, t)
  }

  lemma TopSectionValueIn(s: Settings, k: nat, t: int)
    requires k < TopSectionCount
    ensures TopSectionValue(s, k, t) ==
      if TopSectionStart(k) <= t < TopSectionStart(k + 1) then TopValue(s, t) else None
  {
  }

  /** Every top-level element lies at a tag 1 .. 82. */
  lemma TopValueRange(s: Settings, t: int)
    ensures TopValue(s, t).Some? ==> 1 <= t < 83
  {
  }

  lemma WriteHeadLookup(m: Entries, s: Settings, t: int)
    ensures Lookup(WriteHead(m, s), t) == Overlay(HeadValue(s, t), Lookup(m, t))
  {
  }

  lemma WriteAudioLookup(m: Entries, s: Settings, t: int)
    ensures Lookup(WriteAudio(m, s), t) == Overlay(AudioValue(s, t), Lookup(m, t))
  {
  }

  lemma WriteAgcLookup(m: Entries, s: Settings, t: int)
    ensures Lookup(WriteAgc(m, s), t) == Overlay(AgcValue(s, t), Lookup(m, t))
  {
  }

  lemma WriteNoiseBlankerLookup(m: Entries, s: Settings, t: int)
    ensures Lookup(WriteNoiseBlanker(m, s), t) == Overlay(NoiseBlankerValue(s, t), Lookup(m, t))
  {
  }

  lemma WriteNoiseReductionLookup(m: Entries, s: Settings, t: int)
    ensures Lookup(WriteNoiseReduction(m, s), t) == Overlay(NoiseReductionValue(s, t), Lookup(m, t))
  {
  }

  lemma WriteDemodsLookup(m: Entries, s: Settings, t: int)
    ensures Lookup(WriteDemods(m, s), t) == Overlay(DemodsValue(s, t), Lookup(m, t))
  {
  }

  lemma WriteSquelchLookup(m: Entries, s: Settings, t: int)
    ensures Lookup(WriteSquelch(m, s), t) == Overlay(SquelchValue(s, t), Lookup(m, t))
  {
  }

  lemma WriteTailLookup(m: Entries, s: Settings, t: int)
    ensures Lookup(WriteTail(m, s), t) == Overlay(TailValue(s, t), Lookup(m, t))
  {
  }

  lemma WriteTopSectionLookup(m: Entries, s: Settings, k: nat, t: int)
    requires k < TopSectionCount
    ensures Lookup(WriteTopSection(m, s, k), t) == Overlay(TopSectionValue(s, k, t), Lookup(m, t))
  {
    if k == 0 {
      WriteHeadLookup(m, s, t);
    }     else if k == 1 {
      WriteAudioLookup(m, s, t);
    }     else if k == 2 {
      WriteAgcLookup(m, s, t);
    }     else if k == 3 {
      WriteNoiseBlankerLookup(m, s, t);
    }     else if k == 4 {
      WriteNoiseReductionLookup(m, s, t);
    }     else if k == 5 {
      WriteDemodsLookup(m, s, t);
    }     else if k == 6 {
      WriteSquelchLookup(m, s, t);
    } else {
      WriteTailLookup(m, s, t);
    }
  }

  lemma {:induction false} WriteTopFromLookup(m: Entries, s: Settings, k: nat, t: int)
    requires k <= TopSectionCount
    ensures Lookup(WriteTopFrom(m, s, k), t) ==
      Overlay(if t >= TopSectionStart(k) then TopValue(s, t) else None, Lookup(m, t))
    decreases TopSectionCount - k
  {
    if k < TopSectionCount {
      WriteTopSectionLookup(m, s, k, t);
      WriteTopFromLookup(WriteTopSection(m, s, k), s, k + 1, t);
      TopSectionValueIn(s, k, t);
    } else {
      TopValueRange(s, t);
    }
  }

  /** The top-level elements are exactly the top-level table. */
  lemma TopEntriesLookup(s: Settings, t: int)
    ensures Lookup(TopEntries(s), t) == TopValue(s, t)
  {
    WriteTopFromLookup(map[], s, 0, t);
    TopValueRange(s, t);
  }

  // ---------------------------------------------------------------------
  // The whole archive
  // ---------------------------------------------------------------------

  /** The element serialize stores at tag t: a profile block's element at
      100 * (j + 1) + offset, else the top-level one. */
  function EntryValue(s: Settings, t: int): Option<Value>
    requires |s.profiles| == ProfileCount
  {
    Overlay(ProfilesValue(s.profiles, 0, t), TopValue(s, t))
  }

  /** serialize stores exactly the table: tag t is present precisely when
      the table has an element there, and holds that element. */
  lemma EncodeLookup(s: Settings, t: int)
    requires |s.profiles| == ProfileCount
    ensures Lookup(Encode(s).entries, t) == EntryValue(s, t)
  {
    WriteProfilesFromLookup(TopEntries(s), s.profiles, 0, t);
    TopEntriesLookup(s, t);
  }

  /** e holds exactly the table of s. */
  ghost predicate StoresTable(e: Entries, s: Settings)
    requires |s.profiles| == ProfileCount
  {
    forall t :: Lookup(e, t) == EntryValue(s, t)
  }

  /** serialize stores the table. */
  lemma EncodeStoresTable(s: Settings)
    requires |s.profiles| == ProfileCount
    ensures StoresTable(Encode(s).entries, s)
  {
    forall t
      ensures Lookup(Encode(s).entries, t) == EntryValue(s, t)
    {
      EncodeLookup(s, t);
    }
  }

  /** Below tag 100 the table holds the top-level elements. */
  lemma TableTopAt(s: Settings, e: Entries, t: int)
    requires |s.profiles| == ProfileCount && StoresTable(e, s) && t < 100
    ensures Lookup(e, t) == TopValue(s, t)
  {
    assert Lookup(e, t) == EntryValue(s, t);
    ProfilesValueBelow(s.profiles, 0, t);
  }

  /** Tag 100 * (j + 1) + off holds profile j's element at offset off. */
  lemma TableProfileAt(s: Settings, e: Entries, j: nat, off: int, t: int)
    requires |s.profiles| == ProfileCount && StoresTable(e, s)
    requires j < ProfileCount && 0 <= off < 65 && t == 100 * (j + 1) + off
    ensures Lookup(e, t) == ProfileValue(s.profiles[j], off)
  {
    assert Lookup(e, t) == EntryValue(s, t);
    ProfilesValueAt(s.profiles, 0, j, off);
    TopValueRange(s, t);
  }

  /** serialize uses the tags 1 .. 82 for the top-level elements and, for
      profile j, the tags 100 * (j + 1) + offset with offset 0 .. 64: so
      every stored tag lies in 1 .. 82 or in 100 .. 1064 with a remainder
      modulo 100 below 65, and the two ranges never meet. */
  lemma EncodeTagLayout(s: Settings, t: int)
    requires |s.profiles| == ProfileCount
    ensures t in Encode(s).entries ==> 1 <= t < 83 || (100 <= t < 1065 && t % 100 < 65)
  {
    EncodeLookup(s, t);
    ProfilesValueRange(s.profiles, 0, t);
    TopValueRange(s, t);
  }

  // ---------------------------------------------------------------------
  // Scaled encodings
  // ---------------------------------------------------------------------

  /** A volume survives serialize and deserialize exactly when ten times it
      is a whole number in int32 range. */
  lemma VolumeRoundTrip(v: real)
    ensures DecodeVolume(EncodeVolume(v)) == v <==> OnInt32Grid(v * 10.0)
  {
    DoubleToInt32Exact(v * 10.0);
  }

  /** Every stored volume integer is written back unchanged. */
  lemma VolumeReencodes(t: int32)
    ensures EncodeVolume(DecodeVolume(t)) == t
  {
    var x := DecodeVolume(t) * 10.0;
    assert x == t as real;
    assert OnInt32Grid(x);
    DoubleToInt32Exact(x);
  }

  /** A cutoff survives serialize and deserialize exactly when it is a whole
      number of hundreds in int32 range. */
  lemma CutoffRoundTrip(c: real)
    ensures DecodeCutoff(EncodeCutoff(c)) == c <==> OnInt32Grid(c / 100.0)
  {
    DoubleToInt32Exact(c / 100.0);
  }

  /** Every stored cutoff integer is written back unchanged. */
  lemma CutoffReencodes(t: int32)
    ensures EncodeCutoff(DecodeCutoff(t)) == t
  {
    var x := DecodeCutoff(t) / 100.0;
    assert x == t as real;
    assert OnInt32Grid(x);
    DoubleToInt32Exact(x);
  }

  // ---------------------------------------------------------------------
  // deserialize: error path and the profile flags
  // ---------------------------------------------------------------------

  /** deserialize fails exactly on an invalid archive or a version other
      than 1, and then leaves the defaults in every member resetToDefaults
      names while the profiles, geometry and attachments are untouched. */
  lemma RestoreFails(s: Settings, a: Archive)
    requires |s.profiles| == ProfileCount
    ensures !Restore(s, a).0 <==> a.Invalid? || a.version != 1
    ensures !Restore(s, a).0 ==> Restore(s, a).1 == Reset(s)
    ensures Reset(s).profiles == s.profiles && Reset(s).geometryBytes == s.geometryBytes
    ensures Reset(s).spectrumGui == s.spectrumGui && Reset(s).rollupState == s.rollupState
  {
  }

  /** The top-level amFadeLevel and cwPeaking of a successful deserialize
      come from the last profile block, not from tags 40 and 41. */
  lemma FadeFlagsFromLastBlock(s: Settings, e: Entries)
    requires |s.profiles| == ProfileCount
    ensures Restore(s, Archive(1, e)).1.demods.amFadeLevel == ReadBool(e, 1040, false)
    ensures Restore(s, Archive(1, e)).1.demods.cwPeaking == ReadBool(e, 1041, false)
  {
  }

  // ---------------------------------------------------------------------
  // serialize followed by deserialize
  // ---------------------------------------------------------------------

  /** A channel section after a round trip: the volume passes through its
      integer encoding and the reverse-API and profile selections through
      the read clamps. */
  function ReloadedChannel(c: Channel): Channel {
    c.(volume := DecodeVolume(EncodeVolume(c.volume)),
       reverseAPIPort := ClampPort(c.reverseAPIPort),
       reverseAPIDeviceIndex := ClampIndex(c.reverseAPIDeviceIndex),
       reverseAPIChannelIndex := ClampIndex(c.reverseAPIChannelIndex),
       profileIndex := ClampProfileIndex(c.profileIndex))
  }

  /** A profile after a round trip: the cutoffs pass through their integer
      encoding, and because the squelch times are read one tag below where
      they are written, the mute time falls back to its default (its tag
      holds the integer squelch threshold), the unmute time receives the
      mute time and the maximum tail receives the unmute time. */
  function ReloadedProfile(p: Profile): Profile {
    p.(highCutoff := DecodeCutoff(EncodeCutoff(p.highCutoff)),
       lowCutoff := DecodeCutoff(EncodeCutoff(p.lowCutoff)),
       ssqlTauMute := 0.1,
       ssqlTauUnmute := p.ssqlTauMute,
       amsqMaxTail := p.ssqlTauUnmute)
  }

  /** The settings after a round trip: the channel and the profiles as
      above, and the top-level fade and peaking flags of the last profile. */
  function Reloaded(s: Settings): Settings
    requires |s.profiles| == ProfileCount
  {
    s.(channel := ReloadedChannel(s.channel),
       demods := s.demods.(amFadeLevel := s.profiles[ProfileCount - 1].amFadeLevel,
                           cwPeaking := s.profiles[ProfileCount - 1].cwPeaking),
       profiles := seq(ProfileCount, j requires 0 <= j < ProfileCount => ReloadedProfile(s.profiles[j])))
  }

  lemma ReadBackProfileFilter(q: Profile, s: Settings, e: Entries, j: nat)
    requires |s.profiles| == ProfileCount && StoresTable(e, s) && j < ProfileCount
    ensures ReadProfileFilter(q, e, j) ==
      q.(demod := s.profiles[j].demod,
         spanLog2 := s.profiles[j].spanLog2,
         highCutoff := DecodeCutoff(EncodeCutoff(s.profiles[j].highCutoff)),
         lowCutoff := DecodeCutoff(EncodeCutoff(s.profiles[j].lowCutoff)),
         fftWindow := s.profiles[j].fftWindow)
  {
    TableProfileAt(s, e, j, 4, 104 + 100 * j);
    TableProfileAt(s, e, j, 0, 100 + 100 * j);
    TableProfileAt(s, e, j, 1, 101 + 100 * j);
    TableProfileAt(s, e, j, 2, 102 + 100 * j);
    TableProfileAt(s, e, j, 3, 103 + 100 * j);
  }

  lemma ReadBackProfileAgc(q: Profile, s: Settings, e: Entries, j: nat)
    requires |s.profiles| == ProfileCount && StoresTable(e, s) && j < ProfileCount
    ensures ReadProfileAgc(q, e, j) ==
      q.(agc := s.profiles[j].agc,
         agcMode := s.profiles[j].agcMode,
         agcGain := s.profiles[j].agcGain,
         agcSlope := s.profiles[j].agcSlope,
         agcHangThreshold := s.profiles[j].agcHangThreshold)
  {
    TableProfileAt(s, e, j, 10, 110 + 100 * j);
    TableProfileAt(s, e, j, 11, 111 + 100 * j);
    TableProfileAt(s, e, j, 12, 112 + 100 * j);
    TableProfileAt(s, e, j, 13, 113 + 100 * j);
    TableProfileAt(s, e, j, 14, 114 + 100 * j);
  }

  lemma ReadBackProfileNoiseBlanker(q: Profile, s: Settings, e: Entries, j: nat)
    requires |s.profiles| == ProfileCount && StoresTable(e, s) && j < ProfileCount
    ensures ReadProfileNoiseBlanker(q, e, j) ==
      q.(dnb := s.profiles[j].dnb,
         nbScheme := s.profiles[j].nbScheme,
         nb2Mode := s.profiles[j].nb2Mode,
         nbSlewTime := s.profiles[j].nbSlewTime,
         nbLeadTime := s.profiles[j].nbLeadTime,
         nbLagTime := s.profiles[j].nbLagTime,
         nbThreshold := s.profiles[j].nbThreshold,
         nbAvgTime := s.profiles[j].nbAvgTime)
  {
    TableProfileAt(s, e, j, 20, 120 + 100 * j);
    TableProfileAt(s, e, j, 21, 121 + 100 * j);
    TableProfileAt(s, e, j, 22, 122 + 100 * j);
    TableProfileAt(s, e, j, 23, 123 + 100 * j);
    TableProfileAt(s, e, j, 24, 124 + 100 * j);
    TableProfileAt(s, e, j, 25, 125 + 100 * j);
    TableProfileAt(s, e, j, 26, 126 + 100 * j);
    TableProfileAt(s, e, j, 27, 127 + 100 * j);
  }

  lemma ReadBackProfileNoiseReduction(q: Profile, s: Settings, e: Entries, j: nat)
    requires |s.profiles| == ProfileCount && StoresTable(e, s) && j < ProfileCount
    ensures ReadProfileNoiseReduction(q, e, j) ==
      q.(dnr := s.profiles[j].dnr,
         anf := s.profiles[j].anf,
         nrScheme := s.profiles[j].nrScheme,
         nr2Gain := s.profiles[j].nr2Gain,
         nr2NPE := s.profiles[j].nr2NPE,
         nrPosition := s.profiles[j].nrPosition,
         nr2ArtifactReduction := s.profiles[j].nr2ArtifactReduction)
  {
    TableProfileAt(s, e, j, 30, 130 + 100 * j);
    TableProfileAt(s, e, j, 32, 132 + 100 * j);
    TableProfileAt(s, e, j, 33, 133 + 100 * j);
    TableProfileAt(s, e, j, 34, 134 + 100 * j);
    TableProfileAt(s, e, j, 35, 135 + 100 * j);
    TableProfileAt(s, e, j, 36, 136 + 100 * j);
    TableProfileAt(s, e, j, 37, 137 + 100 * j);
  }

  lemma ReadBackProfileDemods(q: Profile, s: Settings, e: Entries, j: nat)
    requires |s.profiles| == ProfileCount && StoresTable(e, s) && j < ProfileCount
    ensures ReadProfileDemods(q, e, j) ==
      q.(cwPeakFrequency := s.profiles[j].cwPeakFrequency,
         cwBandwidth := s.profiles[j].cwBandwidth,
         cwGain := s.profiles[j].cwGain,
         fmDeviation := s.profiles[j].fmDeviation,
         fmAFLow := s.profiles[j].fmAFLow,
         fmAFHigh := s.profiles[j].fmAFHigh,
         fmAFLimiter := s.profiles[j].fmAFLimiter,
         fmAFLimiterGain := s.profiles[j].fmAFLimiterGain,
         fmCTCSSNotch := s.profiles[j].fmCTCSSNotch,
         fmCTCSSNotchFrequency := s.profiles[j].fmCTCSSNotchFrequency)
  {
    TableProfileAt(s, e, j, 42, 142 + 100 * j);
    TableProfileAt(s, e, j, 43, 143 + 100 * j);
    TableProfileAt(s, e, j, 44, 144 + 100 * j);
    TableProfileAt(s, e, j, 45, 145 + 100 * j);
    TableProfileAt(s, e, j, 46, 146 + 100 * j);
    TableProfileAt(s, e, j, 47, 147 + 100 * j);
    TableProfileAt(s, e, j, 48, 148 + 100 * j);
    TableProfileAt(s, e, j, 49, 149 + 100 * j);
    TableProfileAt(s, e, j, 50, 150 + 100 * j);
    TableProfileAt(s, e, j, 51, 151 + 100 * j);
  }

  lemma ReadBackProfileSquelch(q: Profile, s: Settings, e: Entries, j: nat)
    requires |s.profiles| == ProfileCount && StoresTable(e, s) && j < ProfileCount
    ensures ReadProfileSquelch(q, e, j) ==
      q.(squelch := s.profiles[j].squelch,
         squelchThreshold := s.profiles[j].squelchThreshold,
         ssqlTauMute := 0.1,
         ssqlTauUnmute := s.profiles[j].ssqlTauMute,
         amsqMaxTail := s.profiles[j].ssqlTauUnmute)
  {
    TableProfileAt(s, e, j, 60, 160 + 100 * j);
    TableProfileAt(s, e, j, 61, 161 + 100 * j);
    TableProfileAt(s, e, j, 62, 162 + 100 * j);
    TableProfileAt(s, e, j, 63, 163 + 100 * j);
  }

  /** Reading block j of the table into profile j gives the reloaded profile j. */
  lemma ReadBackProfile(s: Settings, e: Entries, j: nat)
    requires |s.profiles| == ProfileCount && StoresTable(e, s) && j < ProfileCount
    ensures ReadProfile(s.profiles[j], e, j) == ReloadedProfile(s.profiles[j])
  {
    ReadBackProfileFilter(s.profiles[j], s, e, j);
    var q1 := ReadProfileFilter(s.profiles[j], e, j);
    ReadBackProfileAgc(q1, s, e, j);
    var q2 := ReadProfileAgc(q1, e, j);
    ReadBackProfileNoiseBlanker(q2, s, e, j);
    var q3 := ReadProfileNoiseBlanker(q2, e, j);
    ReadBackProfileNoiseReduction(q3, s, e, j);
    var q4 := ReadProfileNoiseReduction(q3, e, j);
    ReadBackProfileDemods(q4, s, e, j);
    var q5 := ReadProfileDemods(q4, e, j);
    ReadBackProfileSquelch(q5, s, e, j);
    var q6 := ReadProfileSquelch(q5, e, j);
  }

  /** The tags 1040 and 1041 of the last block hold the last profile's
      fade and peaking flags. */
  lemma ReadBackFlags(s: Settings, e: Entries)
    requires |s.profiles| == ProfileCount && StoresTable(e, s)
    ensures ReadBool(e, 1040, false) == s.profiles[ProfileCount - 1].amFadeLevel
    ensures ReadBool(e, 1041, false) == s.profiles[ProfileCount - 1].cwPeaking
  {
    TableProfileAt(s, e, 9, 40, 1040);
    TableProfileAt(s, e, 9, 41, 1041);
  }

  lemma ReadBackAudio(s: Settings, e: Entries)
    requires |s.profiles| == ProfileCount && StoresTable(e, s)
    ensures ReadAudio(s.audio, e) == s.audio
  {
    TableTopAt(s, e, 2);
    TableTopAt(s, e, 8);
    TableTopAt(s, e, 9);
    TableTopAt(s, e, 10);
  }

  lemma ReadBackAgc(s: Settings, e: Entries)
    requires |s.profiles| == ProfileCount && StoresTable(e, s)
    ensures ReadAgc(s.agc, e) == s.agc
  {
    TableTopAt(s, e, 11);
    TableTopAt(s, e, 12);
    TableTopAt(s, e, 13);
    TableTopAt(s, e, 14);
    TableTopAt(s, e, 15);
  }

  lemma ReadBackNoiseBlanker(s: Settings, e: Entries)
    requires |s.profiles| == ProfileCount && StoresTable(e, s)
    ensures ReadNoiseBlanker(s.noiseBlanker, e) == s.noiseBlanker
  {
    TableTopAt(s, e, 20);
    TableTopAt(s, e, 21);
    TableTopAt(s, e, 22);
    TableTopAt(s, e, 23);
    TableTopAt(s, e, 24);
    TableTopAt(s, e, 25);
    TableTopAt(s, e, 26);
    TableTopAt(s, e, 27);
  }

  lemma ReadBackNoiseReduction(s: Settings, e: Entries)
    requires |s.profiles| == ProfileCount && StoresTable(e, s)
    ensures ReadNoiseReduction(s.noiseReduction, e) == s.noiseReduction
  {
    TableTopAt(s, e, 30);
    TableTopAt(s, e, 32);
    TableTopAt(s, e, 33);
    TableTopAt(s, e, 34);
    TableTopAt(s, e, 35);
    TableTopAt(s, e, 36);
    TableTopAt(s, e, 37);
  }

  lemma ReadBackDemods(s: Settings, e: Entries)
    requires |s.profiles| == ProfileCount && StoresTable(e, s)
    ensures ReadDemods(s.demods, e) == s.demods
  {
    TableTopAt(s, e, 40);
    TableTopAt(s, e, 41);
    TableTopAt(s, e, 42);
    TableTopAt(s, e, 43);
    TableTopAt(s, e, 44);
    TableTopAt(s, e, 45);
    TableTopAt(s, e, 46);
    TableTopAt(s, e, 47);
    TableTopAt(s, e, 48);
    TableTopAt(s, e, 49);
    TableTopAt(s, e, 50);
    TableTopAt(s, e, 51);
  }

  lemma ReadBackSquelch(s: Settings, e: Entries)
    requires |s.profiles| == ProfileCount && StoresTable(e, s)
    ensures ReadSquelch(s.squelch, e) == s.squelch
  {
    TableTopAt(s, e, 60);
    TableTopAt(s, e, 61);
    TableTopAt(s, e, 62);
    TableTopAt(s, e, 63);
    TableTopAt(s, e, 64);
  }

  lemma ReadBackChannel(s: Settings, e: Entries)
    requires |s.profiles| == ProfileCount && StoresTable(e, s)
    ensures ReadChannel(s.channel, e) == ReloadedChannel(s.channel)
  {
    TableTopAt(s, e, 1);
    TableTopAt(s, e, 3);
    TableTopAt(s, e, 5);
    TableTopAt(s, e, 70);
    TableTopAt(s, e, 71);
    TableTopAt(s, e, 72);
    TableTopAt(s, e, 73);
    TableTopAt(s, e, 74);
    TableTopAt(s, e, 75);
    TableTopAt(s, e, 76);
    TableTopAt(s, e, 77);
    TableTopAt(s, e, 79);
    TableTopAt(s, e, 81);
    TableTopAt(s, e, 82);
  }

  /** The geometry bytes and the attached objects' blobs read back as written. */
  lemma ReadBackBlobs(s: Settings, e: Entries)
    requires |s.profiles| == ProfileCount && StoresTable(e, s)
    ensures ReadBlob(e, 80) == s.geometryBytes
    ensures s.spectrumGui.Some? ==> ReadBlob(e, 4) == s.spectrumGui.value
    ensures s.rollupState.Some? ==> ReadBlob(e, 78) == s.rollupState.value
  {
    TableTopAt(s, e, 4);
    TableTopAt(s, e, 78);
    TableTopAt(s, e, 80);
  }

  /** The top-level reads of the table change only the channel section. */
  lemma ReadBackTop(s: Settings, e: Entries)
    requires |s.profiles| == ProfileCount && StoresTable(e, s)
    ensures ReadTop(s, e) == s.(channel := ReloadedChannel(s.channel))
  {
    ReadBackAudio(s, e);
    ReadBackAgc(s, e);
    ReadBackNoiseBlanker(s, e);
    ReadBackNoiseReduction(s, e);
    ReadBackDemods(s, e);
    ReadBackSquelch(s, e);
    ReadBackChannel(s, e);
    ReadBackBlobs(s, e);
  }

  /** deserialize of a version-1 archive holding the table of s succeeds
      and yields the reloaded settings. */
  lemma RestoreTable(s: Settings, e: Entries)
    requires |s.profiles| == ProfileCount && StoresTable(e, s)
    ensures Restore(s, Archive(1, e)) == (true, Reloaded(s))
  {
    ReadBackTop(s, e);
    ReadBackLoopDemods(s, e);
    ReadBackLoopProfiles(s, e);
  }

  /** The profile loop leaves the last profile's flags in the top-level demods section. */
  lemma ReadBackLoopDemods(s: Settings, e: Entries)
    requires |s.profiles| == ProfileCount && StoresTable(e, s)
    ensures DemodsAfter(s.demods, e, ProfileCount) == Reloaded(s).demods
  {
    ReadBackFlags(s, e);
  }

  /** The profile loop reads every profile back as its reloaded form. */
  lemma ReadBackLoopProfiles(s: Settings, e: Entries)
    requires |s.profiles| == ProfileCount && StoresTable(e, s)
    ensures ProfilesAfter(s.profiles, e, ProfileCount) == Reloaded(s).profiles
  {
    forall j | 0 <= j < ProfileCount
      ensures ReadProfile(s.profiles[j], e, j) == ReloadedProfile(s.profiles[j])
    {
      ReadBackProfile(s, e, j);
    }
  }

  /** deserialize(serialize(s)) succeeds and yields the reloaded settings. */
  lemma EncodeRestore(s: Settings)
    requires |s.profiles| == ProfileCount
    ensures Restore(s, Encode(s)) == (true, Reloaded(s))
  {
    EncodeStoresTable(s);
    RestoreTable(s, Encode(s).entries);
  }

  /** The members whose encodings and clamps are lossless: the volume and
      the cutoffs on their integer grids, the reverse-API port and indexes
      and the profile index inside the ranges deserialize keeps. */
  predicate Storable(s: Settings) {
    && OnInt32Grid(s.channel.volume * 10.0)
    && 1023 < s.channel.reverseAPIPort < 65535
    && s.channel.reverseAPIDeviceIndex <= 99
    && s.channel.reverseAPIChannelIndex <= 99
    && s.channel.profileIndex < ProfileCount as uint32
    && forall j | 0 <= j < |s.profiles| ::
         OnInt32Grid(s.profiles[j].highCutoff / 100.0) && OnInt32Grid(s.profiles[j].lowCutoff / 100.0)
  }

  /** For storable settings the round trip gives back every member except
      the three squelch times of each profile and the top-level fade and
      peaking flags; it is exact precisely when those already agree with
      what the reads produce. */
  lemma RoundTripExact(s: Settings)
    requires |s.profiles| == ProfileCount && Storable(s)
    ensures Restore(s, Encode(s)).0
    ensures Restore(s, Encode(s)).1 == s <==>
      && s.demods.amFadeLevel == s.profiles[ProfileCount - 1].amFadeLevel
      && s.demods.cwPeaking == s.profiles[ProfileCount - 1].cwPeaking
      && forall j | 0 <= j < ProfileCount ::
           s.profiles[j].ssqlTauMute == 0.1 && s.profiles[j].ssqlTauUnmute == 0.1 && s.profiles[j].amsqMaxTail == 0.1
  {
    EncodeRestore(s);
    ReloadedExact(s);
  }

  /** The reloaded form of storable settings is the settings themselves
      exactly when the squelch times and the top-level flags already hold
      what the reads produce. */
  lemma ReloadedExact(s: Settings)
    requires |s.profiles| == ProfileCount && Storable(s)
    ensures Reloaded(s) == s <==>
      && s.demods.amFadeLevel == s.profiles[ProfileCount - 1].amFadeLevel
      && s.demods.cwPeaking == s.profiles[ProfileCount - 1].cwPeaking
      && forall j | 0 <= j < ProfileCount ::
           s.profiles[j].ssqlTauMute == 0.1 && s.profiles[j].ssqlTauUnmute == 0.1 && s.profiles[j].amsqMaxTail == 0.1
  {
    VolumeRoundTrip(s.channel.volume);
    assert ReloadedChannel(s.channel) == s.channel;
    forall j | 0 <= j < ProfileCount
      ensures ReloadedProfile(s.profiles[j]).highCutoff == s.profiles[j].highCutoff
      ensures ReloadedProfile(s.profiles[j]).lowCutoff == s.profiles[j].lowCutoff
    {
      CutoffRoundTrip(s.profiles[j].highCutoff);
      CutoffRoundTrip(s.profiles[j].lowCutoff);
    }
    var r := Reloaded(s);
    if r == s {
      forall j | 0 <= j < ProfileCount
        ensures s.profiles[j].ssqlTauMute == 0.1 && s.profiles[j].ssqlTauUnmute == 0.1 && s.profiles[j].amsqMaxTail == 0.1
      {
        assert r.profiles[j] == s.profiles[j];
      }
    }
  }

  /** resetToDefaults leaves storable values in every member it assigns. */
  lemma DefaultsStorable(s: Settings)
    requires forall j | 0 <= j < |s.profiles| ::
      OnInt32Grid(s.profiles[j].highCutoff / 100.0) && OnInt32Grid(s.profiles[j].lowCutoff / 100.0)
    ensures Storable(Reset(s))
  {
    assert DefaultChannel.volume * 10.0 == 10 as real;
  }
}
