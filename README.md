# FT8 parity tables and WDSP receiver settings, in Dafny

This project models two parts of SDRangel.

**The FT8 LDPC(174,91) parity-check tables** (`ft8/arrays.h`).

- `Nm` has 83 rows, one per parity check. Each row lists up to seven 1-origin codeword bits. A degree-6 check pads its row with 0.
- `Mn` has 174 rows, one per codeword bit. Each row lists the three 1-origin checks that the bit takes part in.
- Module `Ft8ParityGraph` defines a generic 0-origin graph that has the sentinel stripped. It also defines a row-by-row checker over the raw tables, and proves the checker sound: tables that pass it load into a graph that is well formed. In that graph the two adjacency lists are transposes of each other, and each list has 522 edges.
- Module `Ft8Tables` holds the two tables entry by entry and proves that they pass the checker.
- Module `Ft8Syndrome` states the code's contract: the bits of every check XOR to zero. It computes the syndrome with a loop over the raw rows, and proves the algebra of codewords:
  - the zero word is a codeword;
  - codewords are closed under XOR;
  - a single inverted bit violates exactly that bit's three checks.

**The settings record of the WDSP receiver channel** (`plugins/channelrx/wdsprx/wdsprxsettings.cpp`).

- Module `SettingsStore` models the tagged key/value store. Its elements are typed values: 32-bit signed and unsigned integers, booleans, doubles, strings and blobs. A typed read returns its default when the tag is absent or holds an element of another type. The module also models the C++ double-to-`qint32` conversion.
- Module `WdspRxSettings` has three pure specification functions: `Reset` (resetToDefaults), `Encode` (serialize) and `Restore` (deserialize).
- The class `WDSPRxSettings` holds the members, grouped by the sections of the source: audio, AGC, noise blanker, noise reduction, demods, squelch and channel. It also holds the ten profiles, the geometry bytes and the two attached objects. Its methods perform the operations write by write and read by read, and are proved to agree with the specification functions.
- Module `WdspRxSettingsProofs` gives an independent tag-by-tag table of what serialize stores, and proves that `Encode` stores exactly that table. It then proves the following:
  - the scaled encodings of the volume and the cutoffs;
  - the read clamps;
  - the error path;
  - what a serialize followed by a deserialize gives back.

deserialize does not give back everything that serialize wrote. The model reproduces this as the code is written, and the lemmas state the exact differences:

- The profile squelch times are written at offsets 62-64 of a profile block but read from offsets 61-63. So the mute time falls back to its default, because offset 61 holds the integer threshold. The unmute time receives the mute time, and the maximum tail receives the unmute time.
- The fade and peaking flags of every profile block are read into the top-level members. So after a load those two members hold the values of profile 9, and the profiles' own copies are not read.
- The volume is stored as an integer ×10 and the cutoffs as integers ÷100. The round trip is exact only on those grids.
- The reverse-API port, the two reverse-API indexes and the profile index pass through the read clamps.

## Model

| member | source | states |
|---|---|---|
| Ft8ParityGraph.StripMembers | ft8/arrays.h:24-28 | a stripped row holds y exactly when the raw row holds the nonzero 1-origin index y + 1 (the 0 sentinel is dropped and indices become 0-origin) |
| Ft8ParityGraph.LoadSound | ft8/arrays.h:24-31 | tables that pass the row checker load into a valid graph: 83 checks of degree 6 or 7, 174 bits of degree 3, indices in range and distinct, and bit b listed in check c exactly when check c is listed in bit b |
| Ft8ParityGraph.IncreasingIsDistinct | ft8/arrays.h:32-114 | a row whose entries strictly increase repeats no index |
| Ft8ParityGraph.UniformDegreeSum | ft8/arrays.h:117-122 | rows that all have degree d contribute d times their number of edges |
| Ft8ParityGraph.EdgeCount | ft8/arrays.h:32-114 | in a valid graph, the entries of all check rows and of all bit rows both number 3 · 174 = 522 |
| Ft8Tables.TablesConsistent | ft8/arrays.h:31-297 | the Nm and Mn tables pass the checker: 83 and 174 rows; check rows increasing and in 1..174, with 0 only in the last column; bit rows increasing and in 1..83; every entry listed back in the other table |
| Ft8Tables.Graph | ft8/arrays.h:117-122 | the loaded FT8 graph satisfies the valid-graph invariant |
| Ft8Tables.GraphCheckRow | ft8/arrays.h:31-115 | check c of the graph is row c of Nm with the sentinel stripped, and that row is well formed |
| Ft8Syndrome.RowParity | ft8/arrays.h:27-28 | the loop over one raw Nm row returns the XOR of the word's bits at the row's nonzero entries minus 1 |
| Ft8Syndrome.Syndrome | ft8/arrays.h:27-28 | the loop over the 83 rows returns, in increasing order, exactly the checks the word violates; the list is empty exactly for codewords |
| Ft8Syndrome.ZeroWordIsCodeword | ft8/arrays.h:28 | the all-zero 174-bit word satisfies every check |
| Ft8Syndrome.CodewordsClosedUnderXor | ft8/arrays.h:28 | the bitwise XOR of two codewords is a codeword |
| Ft8Syndrome.FlipTogglesChecks | ft8/arrays.h:117-121 | inverting bit b toggles exactly the checks listed in b's Mn row |
| Ft8Syndrome.SingleBitErrorDetected | ft8/arrays.h:117-121 | a codeword with one inverted bit violates exactly that bit's three checks, so it is no longer a codeword |
| SettingsStore.Truncate | plugins/channelrx/wdsprx/wdsprxsettings.cpp:114 | the double-to-int conversion truncates toward zero: for x ≥ 0 the result lies in (x − 1, x], for x ≤ 0 in [x, x + 1), so it keeps the sign |
| SettingsStore.DoubleToInt32Exact | plugins/channelrx/wdsprx/wdsprxsettings.cpp:190-191 | converting a double to qint32 and back gives the same value exactly when it is a whole number in int32 range |
| WdspRxSettings.ClampPort | plugins/channelrx/wdsprx/wdsprxsettings.cpp:327-333 | the port read back lies in 1024..65534; it equals the stored value exactly when that value is in range, and is otherwise 8888 |
| WdspRxSettings.ClampIndex | plugins/channelrx/wdsprx/wdsprxsettings.cpp:335-338 | a device or channel index read back is at most 99; it equals the stored value exactly when that value is at most 99, and is otherwise 99 |
| WdspRxSettings.ClampProfileIndex | plugins/channelrx/wdsprx/wdsprxsettings.cpp:350-351 | the profile index read back names one of the 10 profiles; it equals the stored value exactly when that value is below 10, and is otherwise 0 |
| WdspRxSettings.DemodsAfterStep | plugins/channelrx/wdsprx/wdsprxsettings.cpp:395-396 | each iteration of the profile read loop overwrites the top-level fade and peaking flags with tags 140 and 141 of its block |
| WdspRxSettings.ProfilesAfterStep | plugins/channelrx/wdsprx/wdsprxsettings.cpp:353-413 | iteration n of the profile read loop reads profile n from block n and leaves every other profile alone |
| WdspRxSettings.SerializeProfile | plugins/channelrx/wdsprx/wdsprxsettings.cpp:185-235 | the writes of one iteration of the profile loop store block i as the specification's profile write does |
| WdspRxSettings.DeserializeProfile | plugins/channelrx/wdsprx/wdsprxsettings.cpp:355-412 | the reads of one iteration give the specification's profile read, with its defaults, the cutoff scaling and the squelch tags as written |
| WdspRxSettings.DeserializeAudio | plugins/channelrx/wdsprx/wdsprxsettings.cpp:258-272 | the demodulation and audio reads, with their defaults |
| WdspRxSettings.DeserializeAgc | plugins/channelrx/wdsprx/wdsprxsettings.cpp:274-279 | the AGC reads, with their defaults |
| WdspRxSettings.DeserializeNoiseBlanker | plugins/channelrx/wdsprx/wdsprxsettings.cpp:281-290 | the noise blanker reads, with their defaults |
| WdspRxSettings.DeserializeNoiseReduction | plugins/channelrx/wdsprx/wdsprxsettings.cpp:292-302 | the noise reduction reads, with their defaults |
| WdspRxSettings.DeserializeDemods | plugins/channelrx/wdsprx/wdsprxsettings.cpp:304-315 | the top-level demod reads, with their defaults |
| WdspRxSettings.DeserializeSquelch | plugins/channelrx/wdsprx/wdsprxsettings.cpp:317-321 | the top-level squelch reads, with their defaults |
| WdspRxSettings.DeserializeChannel | plugins/channelrx/wdsprx/wdsprxsettings.cpp:257-351 | the frequency offset, volume (÷10), colour, strings, reverse-API members through their clamps, indexes, hidden flag and clamped profile index |
| WdspRxSettings.DeserializeTop | plugins/channelrx/wdsprx/wdsprxsettings.cpp:257-351 | all top-level reads of a version-1 archive, including the attached objects' blobs only when they are attached; the profiles are untouched |
| WdspRxSettings.WDSPRxSettings.constructor | plugins/channelrx/wdsprx/wdsprxsettings.cpp:33-40 | ten profiles, no attached objects, then the defaults of resetToDefaults |
| WdspRxSettings.WDSPRxSettings.ResetToDefaults | plugins/channelrx/wdsprx/wdsprxsettings.cpp:42-107 | every member resetToDefaults names takes its default; the profiles, geometry and attachments are unchanged |
| WdspRxSettings.WDSPRxSettings.Serialize | plugins/channelrx/wdsprx/wdsprxsettings.cpp:109-238 | the archive written is version 1 holding the top-level elements and then the ten profile blocks, as Encode describes |
| WdspRxSettings.WDSPRxSettings.SerializeHead | plugins/channelrx/wdsprx/wdsprxsettings.cpp:112-120 | the frequency offset, demodulation, volume ×10, the spectrum GUI blob only when one is attached, and the colour are stored at tags 1-5; every other tag keeps its element |
| WdspRxSettings.WDSPRxSettings.SerializeAudio | plugins/channelrx/wdsprx/wdsprxsettings.cpp:121-123 | the binaural, flip-channels and DSB flags are stored at tags 8-10; every other tag keeps its element |
| WdspRxSettings.WDSPRxSettings.SerializeAgc | plugins/channelrx/wdsprx/wdsprxsettings.cpp:124-129 | the AGC flag, mode, gain, slope and hang threshold are stored at tags 11-15; every other tag keeps its element |
| WdspRxSettings.WDSPRxSettings.SerializeNoiseBlanker | plugins/channelrx/wdsprx/wdsprxsettings.cpp:130-138 | the noise blanker members are stored at tags 20-27, the times as doubles; every other tag keeps its element |
| WdspRxSettings.WDSPRxSettings.SerializeNoiseReduction | plugins/channelrx/wdsprx/wdsprxsettings.cpp:139-146 | the noise reduction members are stored at tags 30 and 32-37; every other tag keeps its element |
| WdspRxSettings.WDSPRxSettings.SerializeDemods | plugins/channelrx/wdsprx/wdsprxsettings.cpp:147-159 | the top-level demod members are stored at tags 40-51; every other tag keeps its element |
| WdspRxSettings.WDSPRxSettings.SerializeSquelch | plugins/channelrx/wdsprx/wdsprxsettings.cpp:160-165 | the squelch flag, integer threshold and three times are stored at tags 60-64; every other tag keeps its element |
| WdspRxSettings.WDSPRxSettings.SerializeTail | plugins/channelrx/wdsprx/wdsprxsettings.cpp:166-183 | the title, device name, reverse-API members, indexes, the rollup blob only when attached, the geometry bytes, hidden flag and profile index are stored at tags 70-82; every other tag keeps its element |
| WdspRxSettings.WDSPRxSettings.Deserialize | plugins/channelrx/wdsprx/wdsprxsettings.cpp:240-422 | the returned flag and the new state are those of Restore: invalid or non-1 version resets and fails, version 1 reads and succeeds |
| WdspRxSettings.WDSPRxSettings.ReadTopLevel | plugins/channelrx/wdsprx/wdsprxsettings.cpp:257-351 | the members after the top-level reads are those of the specification's top-level read |
| WdspRxSettings.WDSPRxSettings.ReadProfileBlocks | plugins/channelrx/wdsprx/wdsprxsettings.cpp:353-413 | after the profile loop every profile is read from its block and the top-level fade and peaking flags come from block 9 |
| WdspRxSettingsProofs.ProfileSectionValueIn | plugins/channelrx/wdsprx/wdsprxsettings.cpp:186-234 | each section of a profile block occupies its own range of offsets (0-9, 10-19, 20-29, 30-39, 40-59, 60-64) |
| WdspRxSettingsProofs.ProfileValueRange | plugins/channelrx/wdsprx/wdsprxsettings.cpp:186-234 | a profile block uses only offsets 0..64 |
| WdspRxSettingsProofs.WriteProfileLookup | plugins/channelrx/wdsprx/wdsprxsettings.cpp:185-235 | writing profile i stores its table at the tags 100 · (i + 1) + offset and leaves every other tag as it was |
| WdspRxSettingsProofs.WriteProfilesFromLookup | plugins/channelrx/wdsprx/wdsprxsettings.cpp:185-235 | the profile loop stores each profile's table in its own block over the top-level elements |
| WdspRxSettingsProofs.ProfilesValueBelow | plugins/channelrx/wdsprx/wdsprxsettings.cpp:185-235 | the blocks from k on store nothing below tag 100 · (k + 1) |
| WdspRxSettingsProofs.ProfilesValueAt | plugins/channelrx/wdsprx/wdsprxsettings.cpp:185-235 | tag 100 · (j + 1) + offset holds profile j's element at that offset, so distinct (profile, offset) pairs get distinct tags |
| WdspRxSettingsProofs.ProfilesValueRange | plugins/channelrx/wdsprx/wdsprxsettings.cpp:185-235 | the blocks use only tags from 100 · (k + 1) up to 1064 whose remainder modulo 100 is below 65 |
| WdspRxSettingsProofs.TopSectionValueIn | plugins/channelrx/wdsprx/wdsprxsettings.cpp:112-183 | each top-level section occupies its own range of tags |
| WdspRxSettingsProofs.TopValueRange | plugins/channelrx/wdsprx/wdsprxsettings.cpp:112-183 | the top-level elements use only tags 1..82 |
| WdspRxSettingsProofs.TopEntriesLookup | plugins/channelrx/wdsprx/wdsprxsettings.cpp:111-183 | the top-level writes store exactly the top-level table, the blobs 4 and 78 only when the objects are attached |
| WdspRxSettingsProofs.EncodeLookup | plugins/channelrx/wdsprx/wdsprxsettings.cpp:109-238 | every tag of the serialized archive holds exactly the element of the independent tag table, and no other tag is present |
| WdspRxSettingsProofs.EncodeStoresTable | plugins/channelrx/wdsprx/wdsprxsettings.cpp:109-238 | the serialized archive stores the table at every tag |
| WdspRxSettingsProofs.TableTopAt | plugins/channelrx/wdsprx/wdsprxsettings.cpp:112-183 | below tag 100 the stored table holds the top-level elements, which no profile block overwrites |
| WdspRxSettingsProofs.TableProfileAt | plugins/channelrx/wdsprx/wdsprxsettings.cpp:185-235 | tag 100 · (j + 1) + offset of the stored table holds profile j's element |
| WdspRxSettingsProofs.EncodeTagLayout | plugins/channelrx/wdsprx/wdsprxsettings.cpp:112-235 | every serialized tag lies in 1..82 or in 100..1064 with remainder below 65, two ranges that never meet |
| WdspRxSettingsProofs.VolumeRoundTrip | plugins/channelrx/wdsprx/wdsprxsettings.cpp:260-261 | a volume reads back unchanged exactly when ten times it is a whole number in int32 range |
| WdspRxSettingsProofs.VolumeReencodes | plugins/channelrx/wdsprx/wdsprxsettings.cpp:114 | a stored volume integer is written back unchanged |
| WdspRxSettingsProofs.CutoffRoundTrip | plugins/channelrx/wdsprx/wdsprxsettings.cpp:359-362 | a cutoff reads back unchanged exactly when it is a whole number of hundreds in int32 range |
| WdspRxSettingsProofs.CutoffReencodes | plugins/channelrx/wdsprx/wdsprxsettings.cpp:190-191 | a stored cutoff integer is written back unchanged |
| WdspRxSettingsProofs.RestoreFails | plugins/channelrx/wdsprx/wdsprxsettings.cpp:244-421 | deserialize fails exactly for an invalid archive or a version other than 1, and then leaves the defaults, with profiles, geometry and attachments unchanged |
| WdspRxSettingsProofs.FadeFlagsFromLastBlock | plugins/channelrx/wdsprx/wdsprxsettings.cpp:395-396 | after a successful deserialize the top-level fade and peaking flags are tags 1040 and 1041 (block 9), not tags 40 and 41 |
| WdspRxSettingsProofs.ReadBackProfileFilter | plugins/channelrx/wdsprx/wdsprxsettings.cpp:355-363 | the filter reads of a stored block give the profile's members, the cutoffs through their scaling |
| WdspRxSettingsProofs.ReadBackProfileAgc | plugins/channelrx/wdsprx/wdsprxsettings.cpp:364-370 | the AGC reads of a stored block give the profile's members |
| WdspRxSettingsProofs.ReadBackProfileNoiseBlanker | plugins/channelrx/wdsprx/wdsprxsettings.cpp:371-381 | the noise blanker reads of a stored block give the profile's members |
| WdspRxSettingsProofs.ReadBackProfileNoiseReduction | plugins/channelrx/wdsprx/wdsprxsettings.cpp:382-393 | the noise reduction reads of a stored block give the profile's members |
| WdspRxSettingsProofs.ReadBackProfileDemods | plugins/channelrx/wdsprx/wdsprxsettings.cpp:397-406 | the demod reads of a stored block give the profile's members |
| WdspRxSettingsProofs.ReadBackProfileSquelch | plugins/channelrx/wdsprx/wdsprxsettings.cpp:408-412 | reading tags 161-163 of a block written at 162-164 gives mute time 0.1, the mute time as unmute time and the unmute time as maximum tail |
| WdspRxSettingsProofs.ReadBackProfile | plugins/channelrx/wdsprx/wdsprxsettings.cpp:353-413 | reading a stored block gives the reloaded profile: scaled cutoffs and shifted squelch times, every other member unchanged |
| WdspRxSettingsProofs.ReadBackFlags | plugins/channelrx/wdsprx/wdsprxsettings.cpp:217-218 | tags 1040 and 1041 of a stored archive hold profile 9's fade and peaking flags |
| WdspRxSettingsProofs.ReadBackAudio | plugins/channelrx/wdsprx/wdsprxsettings.cpp:258-272 | the audio section reads back unchanged |
| WdspRxSettingsProofs.ReadBackAgc | plugins/channelrx/wdsprx/wdsprxsettings.cpp:274-279 | the AGC section reads back unchanged |
| WdspRxSettingsProofs.ReadBackNoiseBlanker | plugins/channelrx/wdsprx/wdsprxsettings.cpp:281-290 | the noise blanker section reads back unchanged |
| WdspRxSettingsProofs.ReadBackNoiseReduction | plugins/channelrx/wdsprx/wdsprxsettings.cpp:292-302 | the noise reduction section reads back unchanged |
| WdspRxSettingsProofs.ReadBackDemods | plugins/channelrx/wdsprx/wdsprxsettings.cpp:304-315 | the top-level demod section reads back unchanged |
| WdspRxSettingsProofs.ReadBackSquelch | plugins/channelrx/wdsprx/wdsprxsettings.cpp:317-321 | the top-level squelch section reads back unchanged (its tags match on both sides) |
| WdspRxSettingsProofs.ReadBackChannel | plugins/channelrx/wdsprx/wdsprxsettings.cpp:257-351 | the channel section reads back with the volume through its scaling and the port, indexes and profile index through their clamps |
| WdspRxSettingsProofs.ReadBackBlobs | plugins/channelrx/wdsprx/wdsprxsettings.cpp:263-348 | the geometry bytes, and the blobs of the attached objects, read back as written |
| WdspRxSettingsProofs.ReadBackTop | plugins/channelrx/wdsprx/wdsprxsettings.cpp:257-351 | the top-level reads of a stored archive change only the channel section |
| WdspRxSettingsProofs.ReadBackLoopDemods | plugins/channelrx/wdsprx/wdsprxsettings.cpp:353-396 | after the profile loop the top-level fade and peaking flags are profile 9's |
| WdspRxSettingsProofs.ReadBackLoopProfiles | plugins/channelrx/wdsprx/wdsprxsettings.cpp:353-413 | after the profile loop every profile is its reloaded form |
| WdspRxSettingsProofs.RestoreTable | plugins/channelrx/wdsprx/wdsprxsettings.cpp:250-416 | deserializing a version-1 archive that holds the table of s succeeds and gives the reloaded settings |
| WdspRxSettingsProofs.EncodeRestore | plugins/channelrx/wdsprx/wdsprxsettings.cpp:109-422 | deserialize after serialize succeeds and gives the reloaded settings |
| WdspRxSettingsProofs.ReloadedExact | plugins/channelrx/wdsprx/wdsprxsettings.cpp:408-412 | for settings on the encoding grids and inside the clamps, the reloaded form is the settings themselves exactly when every profile's three squelch times are 0.1 and the top-level flags equal profile 9's |
| WdspRxSettingsProofs.RoundTripExact | plugins/channelrx/wdsprx/wdsprxsettings.cpp:109-422 | for such settings deserialize after serialize succeeds, and gives back the same settings exactly under that condition |
| WdspRxSettingsProofs.DefaultsStorable | plugins/channelrx/wdsprx/wdsprxsettings.cpp:99-106 | the defaults lie on the encoding grids and inside the read clamps (volume 1.0, port 8888, indexes 0, profile index 0) |

## Left out

- The LDPC decoder (soft-decision message passing over floating-point likelihoods) is not part of this model. Neither is the FT8 14-bit checksum: neither appears in `ft8/arrays.h`.
- The byte format of `SimpleSerializer` and `SimpleDeserializer` (`util/simpleserializer.h`) is not part of this model. The archive is a version number plus a map from tag to typed element, or an invalid archive. A typed read gives its default when the tag is missing or holds another type, as that class's read functions do.
- The spectrum GUI and the rollup state are foreign objects. Each is represented by the bytes it serializes to, and deserialize replaces those bytes by the blob read back. What the objects do with the bytes is not modelled.
- The values of the `WDSPRxProfile` enumerators and of `AudioDeviceManager::m_defaultDeviceName` are declared in `wdsprxprofile.h` and `audiodevicemanager.cpp`, which are not part of this model. They are constants without a fixed value. The proofs do not depend on them.
- The default profile is a parameter of the constructor, because the `WDSPRxProfile` constructor is not part of this model. The profile members that serialize does not write are not modelled.
- `m_channelMarker` is never serialized and is not modelled. The power-threshold constants (lines 25-31) select a build configuration and are not modelled.
- Doubles are modelled as exact reals. A double write and its read are exact, so this does not change the round trip.
- VolumeRoundTrip: is stated over exact reals. It does not model IEEE rounding of `volume * 10.0` and `tmp / 10.0`.
- VolumeReencodes: is stated over exact reals, so it assumes the volume member is a double (`wdsprxsettings.h` is not part of this model); for a float member the rounding of `tmp / 10.0` is not modelled.
- CutoffRoundTrip: is stated over exact reals. It does not model IEEE rounding of `cutoff / 100.0` and `tmp * 100.0`.
- CutoffReencodes: is stated over exact reals. It does not model IEEE rounding of `tmp * 100.0` and `/ 100.0` for the cutoff members, whose type is declared in `wdsprxprofile.h`, which is not part of this model.
- Converting an out-of-range double to `qint32` is undefined in C++. It is modelled as giving INT32_MIN, the x86 result.
- WdspRxSettings.WDSPRxSettings.ReadProfileBlocks: reads into local copies of the profile list and the demod section, then stores them once after the loop. The source updates the members in place. The final state is the same, and no caller observes the state in between.
- The top-level reads of deserialize compute the new value of every member, then store them together. The source assigns them one by one, in the same order, with the same final result.
