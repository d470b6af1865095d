/**
 * The Java token table, `Options`: one constant per token, its name spelled as the source spells
 * it (a literal, or a base token's name followed by `SUPPORT`).
 */
module JavaOptions {
  import opened Registry
  import opened OptionSets

  const Aperture: Entry := Entry("APERTURE", "aperture", Scalar, "Aperture")
  const AutoBracket: Entry := Entry("AUTO_BRACKET", "_autoBracket", Scalar, "AutoBracketProgram")
  const Bitrate: Entry := Entry("BITRATE", "_bitrate", Scalar, "Bitrate")
  const BluetoothPower: Entry := Entry("BLUETOOTH_POWER", "_bluetoothPower", Scalar, "BluetoothPower")
  const CaptureInterval: Entry := Entry("CAPTURE_INTERVAL", "captureInterval", Scalar, "Integer")
  const CaptureMode: Entry := Entry("CAPTURE_MODE", "captureMode", Scalar, "CaptureMode")
  const CaptureNumber: Entry := Entry("CAPTURE_NUMBER", "captureNumber", Scalar, "Integer")
  const ClientVersion: Entry := Entry("CLIENT_VERSION", "clientVersion", Scalar, "ApiVersion")
  const ColorTemperature: Entry := Entry("COLOR_TEMPERATURE", "_colorTemperature", Scalar, "Integer")
  const CompositeShootingOutputInterval: Entry := Entry("COMPOSITE_SHOOTING_OUTPUT_INTERVAL", "_compositeShootingOutputInterval", Scalar, "Integer")
  const CompositeShootingTime: Entry := Entry("COMPOSITE_SHOOTING_TIME", "_compositeShootingTime", Scalar, "Integer")
  const DateTimeZone: Entry := Entry("DATE_TIME_ZONE", "dateTimeZone", Scalar, "String")
  const ExposureCompensation: Entry := Entry("EXPOSURE_COMPENSATION", "exposureCompensation", Scalar, "ExposureCompensation")
  const ExposureDelay: Entry := Entry("EXPOSURE_DELAY", "exposureDelay", Scalar, "Integer")
  const ExposureProgram: Entry := Entry("EXPOSURE_PROGRAM", "exposureProgram", Scalar, "ExposureProgram")
  const FileFormat: Entry := Entry("FILE_FORMAT", "fileFormat", Scalar, "FileFormat")
  const Filter: Entry := Entry("FILTER", "_filter", Scalar, "Filter")
  const MicrophoneGain: Entry := Entry("MICROPHONE_GAIN", "_gain", Scalar, "MicrophoneGain")
  const GpsInformation: Entry := Entry("GPS_INFORMATION", "gpsInfo", Scalar, "GpsInfo")
  const HdmiResolution: Entry := Entry("HDMI_RESOLUTION", "_HDMIreso", Scalar, "HDMIResolution")
  const Iso: Entry := Entry("ISO", "iso", Scalar, "ISOSpeed")
  const LatestEnabledExposureDelayTime: Entry := Entry("LATEST_ENABLED_EXPOSURE_DELAY_TIME", "_latestEnabledExposureDelayTime", Scalar, "Integer")
  const MaxRecordableTime: Entry := Entry("MAX_RECORDABLE_TIME", "_maxRecordableTime", Scalar, "Integer")
  const Microphone: Entry := Entry("MICROPHONE", "_microphone", Scalar, "Microphone")
  const MicrophoneChannel: Entry := Entry("MICROPHONE_CHANNEL", "_microphoneChannel", Scalar, "MicrophoneChannel")
  const NetworkType: Entry := Entry("NETWORK_TYPE", "_networkType", Scalar, "NetworkType")
  const OffDelay: Entry := Entry("OFF_DELAY", "offDelay", Scalar, "Integer")
  const Password: Entry := Entry("PASSWORD", "_password", Scalar, "String")
  const PreviewFormat: Entry := Entry("PREVIEW_FORMAT", "previewFormat", Scalar, "PreviewFormat")
  const RemainingPictures: Entry := Entry("REMAINING_PICTURES", "remainingPictures", Scalar, "Integer")
  const RemainingSpace: Entry := Entry("REMAINING_SPACE", "remainingSpace", Scalar, "Long")
  const RemainingVideoSeconds: Entry := Entry("REMAINING_VIDEO_SECONDS", "remainingVideoSeconds", Scalar, "Integer")
  const ShutterSpeed: Entry := Entry("SHUTTER_SPEED", "shutterSpeed", Scalar, "ShutterSpeed")
  const ShutterVolume: Entry := Entry("SHUTTER_VOLUME", "_shutterVolume", Scalar, "Integer")
  const SleepDelay: Entry := Entry("SLEEP_DELAY", "sleepDelay", Scalar, "Integer")
  const TotalSpace: Entry := Entry("TOTAL_SPACE", "totalSpace", Scalar, "Integer")
  const Username: Entry := Entry("USERNAME", "_username", Scalar, "String")
  const VideoStitching: Entry := Entry("VIDEO_STITCHING", "videoStitching", Scalar, "VideoStitching")
  const WhiteBalance: Entry := Entry("WHITE_BALANCE", "whiteBalance", Scalar, "WhiteBalance")
  const WlanChannel: Entry := Entry("WLAN_CHANNEL", "_wlanChannel", Scalar, "WlanChannel")
  const WlanFrequency: Entry := Entry("WLAN_FREQUENCY", "_wlanFrequency", Scalar, "WlanFrequency")
  const ApertureSupport: Entry := Entry("APERTURE_SUPPORT", "apertureSupport", Array, "Aperture")
  const BracketNumberSupport: Entry := Entry("BRACKET_NUMBER_SUPPORT", "_bracketNumberSupport", Scalar, "BracketNumberSupport")
  const BitrateSupport: Entry := Entry("BITRATE_SUPPORT", "_bitrateSupport", Array, "Bitrate")
  const BluetoothPowerSupport: Entry := Entry("BLUETOOTH_POWER_SUPPORT", "_bluetoothPowerSupport", Array, "BluetoothPower")
  const CaptureIntervalSupport: Entry := Entry("CAPTURE_INTERVAL_SUPPORT", "captureIntervalSupport", Scalar, "CaptureIntervalSupport")
  const CaptureModeSupport: Entry := Entry("CAPTURE_MODE_SUPPORT", "captureModeSupport", Array, "CaptureMode")
  const CaptureNumberSupport: Entry := Entry("CAPTURE_NUMBER_SUPPORT", "captureNumberSupport", Scalar, "CaptureNumberSupport")
  const ColorTemperatureSupport: Entry := Entry("COLOR_TEMPERATURE_SUPPORT", "_colorTemperatureSupport", Scalar, "ColorTemperatureSupport")
  const CompositeShootingOutputIntervalSupport: Entry := Entry("COMPOSITE_SHOOTING_OUTPUT_INTERVAL_SUPPORT", "_compositeShootingOutputIntervalSupport", Array, "Integer")
  const CompositeShootingTimeSupport: Entry := Entry("COMPOSITE_SHOOTING_TIME_SUPPORT", "_compositeShootingTimeSupport", Array, "Integer")
  const ExposureCompensationSupport: Entry := Entry("EXPOSURE_COMPENSATION_SUPPORT", "exposureCompensationSupport", Array, "ExposureCompensation")
  const ExposureDelaySupport: Entry := Entry("EXPOSURE_DELAY_SUPPORT", "exposureDelaySupport", Array, "Integer")
  const ExposureProgramSupport: Entry := Entry("EXPOSURE_PROGRAM_SUPPORT", "exposureProgramSupport", Array, "ExposureProgram")
  const FileFormatSupport: Entry := Entry("FILE_FORMAT_SUPPORT", "fileFormatSupport", Array, "FileFormat")
  const FilterSupport: Entry := Entry("FILTER_SUPPORT", "_filterSupport", Array, "Filter")
  const MicrophoneGainSupport: Entry := Entry("MICROPHONE_GAIN_SUPPORT", "_gainSupport", Array, "MicrophoneGain")
  const HdmiResolutionSupport: Entry := Entry("HDMI_RESOLUTION_SUPPORT", "_HDMIresoSupport", Array, "HDMIResolution")
  const IsoSupport: Entry := Entry("ISO_SUPPORT", "isoSupport", Array, "ISOSpeed")
  const MaxRecordableTimeSupport: Entry := Entry("MAX_RECORDABLE_TIME_SUPPORT", "_maxRecordableTimeSupport", Array, "Integer")
  const MicrophoneSupport: Entry := Entry("MICROPHONE_SUPPORT", "_microphoneSupport", Array, "Microphone")
  const MicrophoneChannelSupport: Entry := Entry("MICROPHONE_CHANNEL_SUPPORT", "_microphoneChannelSupport", Array, "MicrophoneChannel")
  const NetworkTypeSupport: Entry := Entry("NETWORK_TYPE_SUPPORT", "_networkTypeSupport", Array, "NetworkType")
  const OffDelaySupport: Entry := Entry("OFF_DELAY_SUPPORT", "offDelaySupport", Array, "Integer")
  const PreviewFormatSupport: Entry := Entry("PREVIEW_FORMAT_SUPPORT", "previewFormatSupport", Array, "PreviewFormat")
  const ShutterSpeedSupport: Entry := Entry("SHUTTER_SPEED_SUPPORT", "shutterSpeedSupport", Array, "ShutterSpeed")
  const ShutterVolumeSupport: Entry := Entry("SHUTTER_VOLUME_SUPPORT", "_shutterVolumeSupport", Scalar, "ShutterVolumeSupport")
  const SleepDelaySupport: Entry := Entry("SLEEP_DELAY_SUPPORT", "sleepDelaySupport", Array, "Integer")
  const VideoStitchingSupport: Entry := Entry("VIDEO_STITCHING_SUPPORT", "videoStitchingSupport", Array, "VideoStitching")
  const WhiteBalanceSupport: Entry := Entry("WHITE_BALANCE_SUPPORT", "whiteBalanceSupport", Array, "WhiteBalance")
  const WlanFrequencySupport: Entry := Entry("WLAN_FREQUENCY_SUPPORT", "_wlanFrequencySupport", Array, "WlanFrequency")

  /** The tokens of lines 30-40. */
  const Block1: seq<Entry> := [
    Aperture, AutoBracket, Bitrate, BluetoothPower, CaptureInterval, CaptureMode, CaptureNumber,
    ClientVersion, ColorTemperature, CompositeShootingOutputInterval, CompositeShootingTime
  ]

  /** The tokens of lines 41-51. */
  const Block2: seq<Entry> := [
    DateTimeZone, ExposureCompensation, ExposureDelay, ExposureProgram, FileFormat, Filter,
    MicrophoneGain, GpsInformation, HdmiResolution, Iso, LatestEnabledExposureDelayTime
  ]

  /** The tokens of lines 52-62. */
  const Block3: seq<Entry> := [
    MaxRecordableTime, Microphone, MicrophoneChannel, NetworkType, OffDelay, Password,
    PreviewFormat, RemainingPictures, RemainingSpace, RemainingVideoSeconds, ShutterSpeed
  ]

  /** The tokens of lines 63-70. */
  const Block4: seq<Entry> := [
    ShutterVolume, SleepDelay, TotalSpace, Username, VideoStitching, WhiteBalance, WlanChannel,
    WlanFrequency
  ]

  /** The tokens of lines 72-81. */
  const Block5: seq<Entry> := [
    ApertureSupport, BracketNumberSupport, BitrateSupport, BluetoothPowerSupport,
    CaptureIntervalSupport, CaptureModeSupport, CaptureNumberSupport, ColorTemperatureSupport,
    CompositeShootingOutputIntervalSupport, CompositeShootingTimeSupport
  ]

  /** The tokens of lines 82-91. */
  const Block6: seq<Entry> := [
    ExposureCompensationSupport, ExposureDelaySupport, ExposureProgramSupport, FileFormatSupport,
    FilterSupport, MicrophoneGainSupport, HdmiResolutionSupport, IsoSupport,
    MaxRecordableTimeSupport, MicrophoneSupport
  ]

  /** The tokens of lines 92-101. */
  const Block7: seq<Entry> := [
    MicrophoneChannelSupport, NetworkTypeSupport, OffDelaySupport, PreviewFormatSupport,
    ShutterSpeedSupport, ShutterVolumeSupport, SleepDelaySupport, VideoStitchingSupport,
    WhiteBalanceSupport, WlanFrequencySupport
  ]

  /** The option tokens, in source order. */
  const Options: seq<Entry> := Block1 + Block2 + Block3 + Block4

  /** The support tokens, in source order. */
  const Supports: seq<Entry> := Block5 + Block6 + Block7

  /** The whole table, in source order. */
  const Table: seq<Entry> := Block1 + Block2 + Block3 + Block4 + Block5 + Block6 + Block7

  lemma TableBlocks()
    ensures Table == Block1 + Block2 + Block3 + Block4 + Block5 + Block6 + Block7
    ensures Options == Block1 + Block2 + Block3 + Block4
    ensures Supports == Block5 + Block6 + Block7
  {
  }

  lemma ApertureSupportName()
    ensures ApertureSupport.name == Aperture.name + Support
  {
  }

  lemma BracketNumberSupportName()
    ensures BracketNumberSupport.name == "_bracketNumber" + Support
  {
  }

  lemma BitrateSupportName()
    ensures BitrateSupport.name == Bitrate.name + Support
  {
  }

  lemma BluetoothPowerSupportName()
    ensures BluetoothPowerSupport.name == BluetoothPower.name + Support
  {
  }

  lemma CaptureIntervalSupportName()
    ensures CaptureIntervalSupport.name == CaptureInterval.name + Support
  {
  }

  lemma CaptureModeSupportName()
    ensures CaptureModeSupport.name == CaptureMode.name + Support
  {
  }

  lemma CaptureNumberSupportName()
    ensures CaptureNumberSupport.name == CaptureNumber.name + Support
  {
  }

  lemma ColorTemperatureSupportName()
    ensures ColorTemperatureSupport.name == ColorTemperature.name + Support
  {
  }

  lemma CompositeShootingOutputIntervalSupportName()
    ensures CompositeShootingOutputIntervalSupport.name == CompositeShootingOutputInterval.name + Support
  {
  }

  lemma CompositeShootingTimeSupportName()
    ensures CompositeShootingTimeSupport.name == CompositeShootingTime.name + Support
  {
  }

  lemma ExposureCompensationSupportName()
    ensures ExposureCompensationSupport.name == ExposureCompensation.name + Support
  {
  }

  lemma ExposureDelaySupportName()
    ensures ExposureDelaySupport.name == ExposureDelay.name + Support
  {
  }

  lemma ExposureProgramSupportName()
    ensures ExposureProgramSupport.name == ExposureProgram.name + Support
  {
  }

  lemma FileFormatSupportName()
    ensures FileFormatSupport.name == FileFormat.name + Support
  {
  }

  lemma FilterSupportName()
    ensures FilterSupport.name == Filter.name + Support
  {
  }

  lemma MicrophoneGainSupportName()
    ensures MicrophoneGainSupport.name == MicrophoneGain.name + Support
  {
  }

  lemma HdmiResolutionSupportName()
    ensures HdmiResolutionSupport.name == HdmiResolution.name + Support
  {
  }

  lemma IsoSupportName()
    ensures IsoSupport.name == Iso.name + Support
  {
  }

  lemma MaxRecordableTimeSupportName()
    ensures MaxRecordableTimeSupport.name == MaxRecordableTime.name + Support
  {
  }

  lemma MicrophoneSupportName()
    ensures MicrophoneSupport.name == Microphone.name + Support
  {
  }

  lemma MicrophoneChannelSupportName()
    ensures MicrophoneChannelSupport.name == MicrophoneChannel.name + Support
  {
  }

  lemma NetworkTypeSupportName()
    ensures NetworkTypeSupport.name == NetworkType.name + Support
  {
  }

  lemma OffDelaySupportName()
    ensures OffDelaySupport.name == OffDelay.name + Support
  {
  }

  lemma PreviewFormatSupportName()
    ensures PreviewFormatSupport.name == PreviewFormat.name + Support
  {
  }

  lemma ShutterSpeedSupportName()
    ensures ShutterSpeedSupport.name == ShutterSpeed.name + Support
  {
  }

  lemma ShutterVolumeSupportName()
    ensures ShutterVolumeSupport.name == ShutterVolume.name + Support
  {
  }

  lemma SleepDelaySupportName()
    ensures SleepDelaySupport.name == SleepDelay.name + Support
  {
  }

  lemma VideoStitchingSupportName()
    ensures VideoStitchingSupport.name == VideoStitching.name + Support
  {
  }

  lemma WhiteBalanceSupportName()
    ensures WhiteBalanceSupport.name == WhiteBalance.name + Support
  {
  }

  lemma WlanFrequencySupportName()
    ensures WlanFrequencySupport.name == WlanFrequency.name + Support
  {
  }

  /** Every support token is named as the source names it: its base token's name (or a literal) followed by `SUPPORT`. */
  lemma SupportNames()
    ensures ApertureSupport.name == Aperture.name + Support
    ensures BracketNumberSupport.name == "_bracketNumber" + Support
    ensures BitrateSupport.name == Bitrate.name + Support
    ensures BluetoothPowerSupport.name == BluetoothPower.name + Support
    ensures CaptureIntervalSupport.name == CaptureInterval.name + Support
    ensures CaptureModeSupport.name == CaptureMode.name + Support
    ensures CaptureNumberSupport.name == CaptureNumber.name + Support
    ensures ColorTemperatureSupport.name == ColorTemperature.name + Support
    ensures CompositeShootingOutputIntervalSupport.name == CompositeShootingOutputInterval.name + Support
    ensures CompositeShootingTimeSupport.name == CompositeShootingTime.name + Support
    ensures ExposureCompensationSupport.name == ExposureCompensation.name + Support
    ensures ExposureDelaySupport.name == ExposureDelay.name + Support
    ensures ExposureProgramSupport.name == ExposureProgram.name + Support
    ensures FileFormatSupport.name == FileFormat.name + Support
    ensures FilterSupport.name == Filter.name + Support
    ensures MicrophoneGainSupport.name == MicrophoneGain.name + Support
    ensures HdmiResolutionSupport.name == HdmiResolution.name + Support
    ensures IsoSupport.name == Iso.name + Support
    ensures MaxRecordableTimeSupport.name == MaxRecordableTime.name + Support
    ensures MicrophoneSupport.name == Microphone.name + Support
    ensures MicrophoneChannelSupport.name == MicrophoneChannel.name + Support
    ensures NetworkTypeSupport.name == NetworkType.name + Support
    ensures OffDelaySupport.name == OffDelay.name + Support
    ensures PreviewFormatSupport.name == PreviewFormat.name + Support
    ensures ShutterSpeedSupport.name == ShutterSpeed.name + Support
    ensures ShutterVolumeSupport.name == ShutterVolume.name + Support
    ensures SleepDelaySupport.name == SleepDelay.name + Support
    ensures VideoStitchingSupport.name == VideoStitching.name + Support
    ensures WhiteBalanceSupport.name == WhiteBalance.name + Support
    ensures WlanFrequencySupport.name == WlanFrequency.name + Support
  {
    hide *;
    ApertureSupportName();
    BracketNumberSupportName();
    BitrateSupportName();
    BluetoothPowerSupportName();
    CaptureIntervalSupportName();
    CaptureModeSupportName();
    CaptureNumberSupportName();
    ColorTemperatureSupportName();
    CompositeShootingOutputIntervalSupportName();
    CompositeShootingTimeSupportName();
    ExposureCompensationSupportName();
    ExposureDelaySupportName();
    ExposureProgramSupportName();
    FileFormatSupportName();
    FilterSupportName();
    MicrophoneGainSupportName();
    HdmiResolutionSupportName();
    IsoSupportName();
    MaxRecordableTimeSupportName();
    MicrophoneSupportName();
    MicrophoneChannelSupportName();
    NetworkTypeSupportName();
    OffDelaySupportName();
    PreviewFormatSupportName();
    ShutterSpeedSupportName();
    ShutterVolumeSupportName();
    SleepDelaySupportName();
    VideoStitchingSupportName();
    WhiteBalanceSupportName();
    WlanFrequencySupportName();
  }

  /** The support tokens read as a single value; every other support token is read as a list. */
  const ScalarSupportFields: set<string> := {"BRACKET_NUMBER_SUPPORT", "CAPTURE_INTERVAL_SUPPORT", "CAPTURE_NUMBER_SUPPORT", "COLOR_TEMPERATURE_SUPPORT", "SHUTTER_VOLUME_SUPPORT"}

  lemma Block5Kinds()
    ensures KindsAsListed(Block5, ScalarSupportFields)
  {
  }

  lemma Block6Kinds()
    ensures KindsAsListed(Block6, ScalarSupportFields)
  {
  }

  lemma Block7Kinds()
    ensures KindsAsListed(Block7, ScalarSupportFields)
  {
  }

  /** The support tokens whose kind is `Scalar` are exactly those listed. */
  lemma SupportKinds()
    ensures KindsAsListed(Supports, ScalarSupportFields)
  {
    hide *;
    TableBlocks();
    Block5Kinds();
    Block6Kinds();
    Block7Kinds();
    KindsConcat(Block5, Block6, ScalarSupportFields);
    KindsConcat(Block5 + Block6, Block7, ScalarSupportFields);
  }

  lemma Block1LacksBracketNumber()
    ensures NoneNamed(Block1, "_bracketNumber")
  {
  }

  lemma Block2LacksBracketNumber()
    ensures NoneNamed(Block2, "_bracketNumber")
  {
  }

  lemma Block3LacksBracketNumber()
    ensures NoneNamed(Block3, "_bracketNumber")
  {
  }

  lemma Block4LacksBracketNumber()
    ensures NoneNamed(Block4, "_bracketNumber")
  {
  }

  /** No option token is named `_bracketNumber`, the stem of the bracket-number support token. */
  lemma NoBracketNumberOption()
    ensures NoneNamed(Options, "_bracketNumber")
  {
    hide *;
    TableBlocks();
    Block1LacksBracketNumber();
    Block2LacksBracketNumber();
    Block3LacksBracketNumber();
    Block4LacksBracketNumber();
    NoneNamedConcat(Block1, Block2, "_bracketNumber");
    NoneNamedConcat(Block1 + Block2, Block3, "_bracketNumber");
    NoneNamedConcat(Block1 + Block2 + Block3, Block4, "_bracketNumber");
  }

  lemma Block1Distinct()
    ensures DistinctNames(Block1)
  {
  }

  lemma Block2Distinct()
    ensures DistinctNames(Block2)
  {
  }

  lemma Block3Distinct()
    ensures DistinctNames(Block3)
  {
  }

  lemma Block4Distinct()
    ensures DistinctNames(Block4)
  {
  }

  lemma Block5Distinct()
    ensures DistinctNames(Block5)
  {
  }

  lemma Block6Distinct()
    ensures DistinctNames(Block6)
  {
  }

  lemma Block7Distinct()
    ensures DistinctNames(Block7)
  {
  }

  lemma Blocks1And2Disjoint()
    ensures DisjointNames(Block1, Block2)
  {
  }

  lemma Blocks1And3Disjoint()
    ensures DisjointNames(Block1, Block3)
  {
  }

  lemma Blocks2And3Disjoint()
    ensures DisjointNames(Block2, Block3)
  {
  }

  lemma Blocks1And4Disjoint()
    ensures DisjointNames(Block1, Block4)
  {
  }

  lemma Blocks2And4Disjoint()
    ensures DisjointNames(Block2, Block4)
  {
  }

  lemma Blocks3And4Disjoint()
    ensures DisjointNames(Block3, Block4)
  {
  }

  lemma Blocks1And5Disjoint()
    ensures DisjointNames(Block1, Block5)
  {
  }

  lemma Blocks2And5Disjoint()
    ensures DisjointNames(Block2, Block5)
  {
  }

  lemma Blocks3And5Disjoint()
    ensures DisjointNames(Block3, Block5)
  {
  }

  lemma Blocks4And5Disjoint()
    ensures DisjointNames(Block4, Block5)
  {
  }

  lemma Blocks1And6Disjoint()
    ensures DisjointNames(Block1, Block6)
  {
  }

  lemma Blocks2And6Disjoint()
    ensures DisjointNames(Block2, Block6)
  {
  }

  lemma Blocks3And6Disjoint()
    ensures DisjointNames(Block3, Block6)
  {
  }

  lemma Blocks4And6Disjoint()
    ensures DisjointNames(Block4, Block6)
  {
  }

  lemma Blocks5And6Disjoint()
    ensures DisjointNames(Block5, Block6)
  {
  }

  lemma Blocks1And7Disjoint()
    ensures DisjointNames(Block1, Block7)
  {
  }

  lemma Blocks2And7Disjoint()
    ensures DisjointNames(Block2, Block7)
  {
  }

  lemma Blocks3And7Disjoint()
    ensures DisjointNames(Block3, Block7)
  {
  }

  lemma Blocks4And7Disjoint()
    ensures DisjointNames(Block4, Block7)
  {
  }

  lemma Blocks5And7Disjoint()
    ensures DisjointNames(Block5, Block7)
  {
  }

  lemma Blocks6And7Disjoint()
    ensures DisjointNames(Block6, Block7)
  {
  }

  /** No two tokens of the table share a wire name. */
  lemma NamesDistinct()
    ensures DistinctNames(Table)
  {
    hide *;
    TableBlocks();
    Block1Distinct();
    Block2Distinct();
    Blocks1And2Disjoint();
    DistinctConcat(Block1, Block2);
    Block3Distinct();
    Blocks1And3Disjoint();
    Blocks2And3Disjoint();
    DisjointConcat(Block1, Block2, Block3);
    DistinctConcat(Block1 + Block2, Block3);
    Block4Distinct();
    Blocks1And4Disjoint();
    Blocks2And4Disjoint();
    Blocks3And4Disjoint();
    DisjointConcat(Block1, Block2, Block4);
    DisjointConcat(Block1 + Block2, Block3, Block4);
    DistinctConcat(Block1 + Block2 + Block3, Block4);
    Block5Distinct();
    Blocks1And5Disjoint();
    Blocks2And5Disjoint();
    Blocks3And5Disjoint();
    Blocks4And5Disjoint();
    DisjointConcat(Block1, Block2, Block5);
    DisjointConcat(Block1 + Block2, Block3, Block5);
    DisjointConcat(Block1 + Block2 + Block3, Block4, Block5);
    DistinctConcat(Block1 + Block2 + Block3 + Block4, Block5);
    Block6Distinct();
    Blocks1And6Disjoint();
    Blocks2And6Disjoint();
    Blocks3And6Disjoint();
    Blocks4And6Disjoint();
    Blocks5And6Disjoint();
    DisjointConcat(Block1, Block2, Block6);
    DisjointConcat(Block1 + Block2, Block3, Block6);
    DisjointConcat(Block1 + Block2 + Block3, Block4, Block6);
    DisjointConcat(Block1 + Block2 + Block3 + Block4, Block5, Block6);
    DistinctConcat(Block1 + Block2 + Block3 + Block4 + Block5, Block6);
    Block7Distinct();
    Blocks1And7Disjoint();
    Blocks2And7Disjoint();
    Blocks3And7Disjoint();
    Blocks4And7Disjoint();
    Blocks5And7Disjoint();
    Blocks6And7Disjoint();
    DisjointConcat(Block1, Block2, Block7);
    DisjointConcat(Block1 + Block2, Block3, Block7);
    DisjointConcat(Block1 + Block2 + Block3, Block4, Block7);
    DisjointConcat(Block1 + Block2 + Block3 + Block4, Block5, Block7);
    DisjointConcat(Block1 + Block2 + Block3 + Block4 + Block5, Block6, Block7);
    DistinctConcat(Block1 + Block2 + Block3 + Block4 + Block5 + Block6, Block7);
  }

}
