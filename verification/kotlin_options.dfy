/**
 * The Kotlin token table, `Options`: one constant per token, its name spelled as the source spells
 * it (a literal, or a base token's name followed by `SUPPORT`).
 */
module KotlinOptions {
  import opened Registry
  import opened OptionSets

  const AiAutoThumbnail: Entry := Entry("AI_AUTO_THUMBNAIL", "_aiAutoThumbnail", Scalar, "AIAutoThumbnail")
  const Aperture: Entry := Entry("APERTURE", "aperture", Scalar, "Aperture")
  const Authentication: Entry := Entry("AUTHENTICATION", "_authentication", Scalar, "Authentication")
  const AutoBracket: Entry := Entry("AUTO_BRACKET", "_autoBracket", Scalar, "AutoBracketProgram")
  const Bitrate: Entry := Entry("BITRATE", "_bitrate", Scalar, "Bitrate")
  const BluetoothPower: Entry := Entry("BLUETOOTH_POWER", "_bluetoothPower", Scalar, "BluetoothPower")
  const BluetoothClassicEnable: Entry := Entry("BLUETOOTH_CLASSIC_ENABLE", "_bluetoothClassicEnable", Scalar, "Boolean")
  const BluetoothRole: Entry := Entry("BLUETOOTH_ROLE", "_bluetoothRole", Scalar, "BluetoothRole")
  const CaptureInterval: Entry := Entry("CAPTURE_INTERVAL", "captureInterval", Scalar, "Int")
  const CaptureMode: Entry := Entry("CAPTURE_MODE", "captureMode", Scalar, "CaptureMode")
  const CameraMode: Entry := Entry("CAMERA_MODE", "_cameraMode", Scalar, "CameraMode")
  const CameraControlSource: Entry := Entry("CAMERA_CONTROL_SOURCE", "_cameraControlSource", Scalar, "CameraControlSource")
  const CaptureNumber: Entry := Entry("CAPTURE_NUMBER", "captureNumber", Scalar, "Int")
  const ClientVersion: Entry := Entry("CLIENT_VERSION", "clientVersion", Scalar, "ApiVersion")
  const ColorTemperature: Entry := Entry("COLOR_TEMPERATURE", "_colorTemperature", Scalar, "Int")
  const CompositeShootingOutputInterval: Entry := Entry("COMPOSITE_SHOOTING_OUTPUT_INTERVAL", "_compositeShootingOutputInterval", Scalar, "Int")
  const CompositeShootingTime: Entry := Entry("COMPOSITE_SHOOTING_TIME", "_compositeShootingTime", Scalar, "Int")
  const ContinuousNumber: Entry := Entry("CONTINUOUS_NUMBER", "continuousNumber", Scalar, "Int")
  const DateTimeZone: Entry := Entry("DATE_TIME_ZONE", "dateTimeZone", Scalar, "DateTimeZoneSerializer")
  const ExposureCompensation: Entry := Entry("EXPOSURE_COMPENSATION", "exposureCompensation", Scalar, "ExposureCompensation")
  const ExposureDelay: Entry := Entry("EXPOSURE_DELAY", "exposureDelay", Scalar, "Int")
  const ExposureProgram: Entry := Entry("EXPOSURE_PROGRAM", "exposureProgram", Scalar, "ExposureProgram")
  const FaceDetect: Entry := Entry("FACE_DETECT", "_faceDetect", Scalar, "FaceDetect")
  const FileFormat: Entry := Entry("FILE_FORMAT", "fileFormat", Scalar, "FileFormat")
  const Filter: Entry := Entry("FILTER", "_filter", Scalar, "Filter")
  const Function: Entry := Entry("FUNCTION", "_function", Scalar, "Function")
  const MicrophoneGain: Entry := Entry("MICROPHONE_GAIN", "_gain", Scalar, "MicrophoneGain")
  const GpsInformation: Entry := Entry("GPS_INFORMATION", "gpsInfo", Scalar, "GpsInfo")
  const GpsTagRecording: Entry := Entry("GPS_TAG_RECORDING", "_gpsTagRecording", Scalar, "GPSTagRecording")
  const HdmiResolution: Entry := Entry("HDMI_RESOLUTION", "_HDMIreso", Scalar, "HDMIResolution")
  const ImageStitching: Entry := Entry("IMAGE_STITCHING", "_imageStitching", Scalar, "ImageStitching")
  const Iso: Entry := Entry("ISO", "iso", Scalar, "Iso")
  const IsoAutoHighLimit: Entry := Entry("ISO_AUTO_HIGH_LIMIT", "isoAutoHighLimit", Scalar, "Iso")
  const Language: Entry := Entry("LANGUAGE", "_language", Scalar, "String")
  const LatestEnabledExposureDelayTime: Entry := Entry("LATEST_ENABLED_EXPOSURE_DELAY_TIME", "_latestEnabledExposureDelayTime", Scalar, "Int")
  const MaxRecordableTime: Entry := Entry("MAX_RECORDABLE_TIME", "_maxRecordableTime", Scalar, "Int")
  const Microphone: Entry := Entry("MICROPHONE", "_microphone", Scalar, "Microphone")
  const MicrophoneChannel: Entry := Entry("MICROPHONE_CHANNEL", "_microphoneChannel", Scalar, "MicrophoneChannel")
  const NetworkType: Entry := Entry("NETWORK_TYPE", "_networkType", Scalar, "NetworkType")
  const OffDelay: Entry := Entry("OFF_DELAY", "offDelay", Scalar, "Int")
  const PowerSaving: Entry := Entry("POWER_SAVING", "_powerSaving", Scalar, "PowerSaving")
  const Password: Entry := Entry("PASSWORD", "_password", Scalar, "String")
  const PreviewFormat: Entry := Entry("PREVIEW_FORMAT", "previewFormat", Scalar, "PreviewFormat")
  const RemainingPictures: Entry := Entry("REMAINING_PICTURES", "remainingPictures", Scalar, "Int")
  const RemainingSpace: Entry := Entry("REMAINING_SPACE", "remainingSpace", Scalar, "Long")
  const RemainingVideoSeconds: Entry := Entry("REMAINING_VIDEO_SECONDS", "remainingVideoSeconds", Scalar, "Int")
  const ShootingMethod: Entry := Entry("SHOOTING_METHOD", "_shootingMethod", Scalar, "ShootingMethod")
  const ShutterSpeed: Entry := Entry("SHUTTER_SPEED", "shutterSpeed", Scalar, "ShutterSpeed")
  const ShutterVolume: Entry := Entry("SHUTTER_VOLUME", "_shutterVolume", Scalar, "Int")
  const SleepDelay: Entry := Entry("SLEEP_DELAY", "sleepDelay", Scalar, "Int")
  const TimeShift: Entry := Entry("TIME_SHIFT", "_timeShift", Scalar, "TimeShift")
  const TopBottomCorrection: Entry := Entry("TOP_BOTTOM_CORRECTION", "_topBottomCorrection", Scalar, "TopBottomCorrection")
  const TopBottomCorrectionRotation: Entry := Entry("TOP_BOTTOM_CORRECTION_ROTATION", "_topBottomCorrectionRotation", Scalar, "TopBottomCorrectionRotation")
  const TotalSpace: Entry := Entry("TOTAL_SPACE", "totalSpace", Scalar, "Int")
  const Username: Entry := Entry("USERNAME", "_username", Scalar, "String")
  const VideoStitching: Entry := Entry("VIDEO_STITCHING", "videoStitching", Scalar, "VideoStitching")
  const VisibilityReduction: Entry := Entry("VISIBILITY_REDUCTION", "_visibilityReduction", Scalar, "VisibilityReduction")
  const WhiteBalance: Entry := Entry("WHITE_BALANCE", "whiteBalance", Scalar, "WhiteBalance")
  const WlanChannel: Entry := Entry("WLAN_CHANNEL", "_wlanChannel", Scalar, "WlanChannel")
  const WlanFrequency: Entry := Entry("WLAN_FREQUENCY", "_wlanFrequency", Scalar, "WlanFrequency")
  const AiAutoThumbnailSupport: Entry := Entry("AI_AUTO_THUMBNAIL_SUPPORT", "_aiAutoThumbnailSupport", Array, "AIAutoThumbnail")
  const ApertureSupport: Entry := Entry("APERTURE_SUPPORT", "apertureSupport", Array, "Aperture")
  const AuthenticationSupport: Entry := Entry("AUTHENTICATION_SUPPORT", "_authenticationSupport", Array, "Authentication")
  const BracketNumberSupport: Entry := Entry("BRACKET_NUMBER_SUPPORT", "_bracketNumberSupport", Scalar, "BracketNumberSupport")
  const BitrateSupport: Entry := Entry("BITRATE_SUPPORT", "_bitrateSupport", Array, "Bitrate")
  const BluetoothPowerSupport: Entry := Entry("BLUETOOTH_POWER_SUPPORT", "_bluetoothPowerSupport", Array, "BluetoothPower")
  const CaptureIntervalSupport: Entry := Entry("CAPTURE_INTERVAL_SUPPORT", "captureIntervalSupport", Scalar, "CaptureIntervalSupport")
  const CaptureModeSupport: Entry := Entry("CAPTURE_MODE_SUPPORT", "captureModeSupport", Array, "CaptureMode")
  const CameraModeSupport: Entry := Entry("CAMERA_MODE_SUPPORT", "_cameraModeSupport", Array, "CameraMode")
  const CameraControlSourceSupport: Entry := Entry("CAMERA_CONTROL_SOURCE_SUPPORT", "_cameraControlSourceSupport", Array, "CameraControlSource")
  const CaptureNumberSupport: Entry := Entry("CAPTURE_NUMBER_SUPPORT", "captureNumberSupport", Scalar, "CaptureNumberSupport")
  const ColorTemperatureSupport: Entry := Entry("COLOR_TEMPERATURE_SUPPORT", "_colorTemperatureSupport", Scalar, "ColorTemperatureSupport")
  const CompositeShootingOutputIntervalSupport: Entry := Entry("COMPOSITE_SHOOTING_OUTPUT_INTERVAL_SUPPORT", "_compositeShootingOutputIntervalSupport", Array, "Int")
  const CompositeShootingTimeSupport: Entry := Entry("COMPOSITE_SHOOTING_TIME_SUPPORT", "_compositeShootingTimeSupport", Array, "Int")
  const ContinuousNumberSupport: Entry := Entry("CONTINUOUS_NUMBER_SUPPORT", "continuousNumberSupport", Scalar, "Int")
  const ExposureCompensationSupport: Entry := Entry("EXPOSURE_COMPENSATION_SUPPORT", "exposureCompensationSupport", Array, "ExposureCompensation")
  const ExposureDelaySupport: Entry := Entry("EXPOSURE_DELAY_SUPPORT", "exposureDelaySupport", Array, "Int")
  const ExposureProgramSupport: Entry := Entry("EXPOSURE_PROGRAM_SUPPORT", "exposureProgramSupport", Array, "ExposureProgram")
  const FaceDetectSupport: Entry := Entry("FACE_DETECT_SUPPORT", "_faceDetectSupport", Array, "FaceDetect")
  const FileFormatSupport: Entry := Entry("FILE_FORMAT_SUPPORT", "fileFormatSupport", Array, "FileFormat")
  const FilterSupport: Entry := Entry("FILTER_SUPPORT", "_filterSupport", Array, "Filter")
  const FunctionSupport: Entry := Entry("FUNCTION_SUPPORT", "_functionSupport", Array, "Function")
  const MicrophoneGainSupport: Entry := Entry("MICROPHONE_GAIN_SUPPORT", "_gainSupport", Array, "MicrophoneGain")
  const GpsTagRecordingSupport: Entry := Entry("GPS_TAG_RECORDING_SUPPORT", "_gpsTagRecordingSupport", Array, "GPSTagRecording")
  const HdmiResolutionSupport: Entry := Entry("HDMI_RESOLUTION_SUPPORT", "_HDMIresoSupport", Array, "HDMIResolution")
  const ImageStitchingSupport: Entry := Entry("IMAGE_STITCHING_SUPPORT", "_imageStitchingSupport", Array, "ImageStitching")
  const IsoSupport: Entry := Entry("ISO_SUPPORT", "isoSupport", Array, "Iso")
  const IsoAutoHighLimitSupport: Entry := Entry("ISO_AUTO_HIGH_LIMIT_SUPPORT", "isoAutoHighLimitSupport", Array, "Iso")
  const LanguageSupport: Entry := Entry("LANGUAGE_SUPPORT", "_languageSupport", Array, "String")
  const MaxRecordableTimeSupport: Entry := Entry("MAX_RECORDABLE_TIME_SUPPORT", "_maxRecordableTimeSupport", Array, "Int")
  const MicrophoneSupport: Entry := Entry("MICROPHONE_SUPPORT", "_microphoneSupport", Array, "Microphone")
  const MicrophoneChannelSupport: Entry := Entry("MICROPHONE_CHANNEL_SUPPORT", "_microphoneChannelSupport", Array, "MicrophoneChannel")
  const NetworkTypeSupport: Entry := Entry("NETWORK_TYPE_SUPPORT", "_networkTypeSupport", Array, "NetworkType")
  const OffDelaySupport: Entry := Entry("OFF_DELAY_SUPPORT", "offDelaySupport", Array, "Int")
  const PowerSavingSupport: Entry := Entry("POWER_SAVING_SUPPORT", "_powerSavingSupport", Array, "PowerSaving")
  const PreviewFormatSupport: Entry := Entry("PREVIEW_FORMAT_SUPPORT", "previewFormatSupport", Array, "PreviewFormat")
  const ShootingMethodSupport: Entry := Entry("SHOOTING_METHOD_SUPPORT", "_shootingMethodSupport", Array, "ShootingMethod")
  const ShutterSpeedSupport: Entry := Entry("SHUTTER_SPEED_SUPPORT", "shutterSpeedSupport", Array, "ShutterSpeed")
  const ShutterVolumeSupport: Entry := Entry("SHUTTER_VOLUME_SUPPORT", "_shutterVolumeSupport", Scalar, "ShutterVolumeSupport")
  const SleepDelaySupport: Entry := Entry("SLEEP_DELAY_SUPPORT", "sleepDelaySupport", Array, "Int")
  const TimeShiftSupport: Entry := Entry("TIME_SHIFT_SUPPORT", "_timeShiftSupport", Scalar, "TimeShiftSupport")
  const TopBottomCorrectionSupport: Entry := Entry("TOP_BOTTOM_CORRECTION_SUPPORT", "_topBottomCorrectionSupport", Array, "TopBottomCorrection")
  const TopBottomCorrectionRotationSupport: Entry := Entry("TOP_BOTTOM_CORRECTION_ROTATION_SUPPORT", "_topBottomCorrectionRotationSupport", Scalar, "TopBottomCorrectionRotationSupport")
  const VideoStitchingSupport: Entry := Entry("VIDEO_STITCHING_SUPPORT", "videoStitchingSupport", Array, "VideoStitching")
  const WhiteBalanceSupport: Entry := Entry("WHITE_BALANCE_SUPPORT", "whiteBalanceSupport", Array, "WhiteBalance")
  const WlanFrequencySupport: Entry := Entry("WLAN_FREQUENCY_SUPPORT", "_wlanFrequencySupport", Array, "WlanFrequency")

  /** The tokens of lines 25-36. */
  const Block1: seq<Entry> := [
    AiAutoThumbnail, Aperture, Authentication, AutoBracket, Bitrate, BluetoothPower,
    BluetoothClassicEnable, BluetoothRole, CaptureInterval, CaptureMode, CameraMode,
    CameraControlSource
  ]

  /** The tokens of lines 37-48. */
  const Block2: seq<Entry> := [
    CaptureNumber, ClientVersion, ColorTemperature, CompositeShootingOutputInterval,
    CompositeShootingTime, ContinuousNumber, DateTimeZone, ExposureCompensation, ExposureDelay,
    ExposureProgram, FaceDetect, FileFormat
  ]

  /** The tokens of lines 49-60. */
  const Block3: seq<Entry> := [
    Filter, Function, MicrophoneGain, GpsInformation, GpsTagRecording, HdmiResolution,
    ImageStitching, Iso, IsoAutoHighLimit, Language, LatestEnabledExposureDelayTime,
    MaxRecordableTime
  ]

  /** The tokens of lines 61-72. */
  const Block4: seq<Entry> := [
    Microphone, MicrophoneChannel, NetworkType, OffDelay, PowerSaving, Password, PreviewFormat,
    RemainingPictures, RemainingSpace, RemainingVideoSeconds, ShootingMethod, ShutterSpeed
  ]

  /** The tokens of lines 73-84. */
  const Block5: seq<Entry> := [
    ShutterVolume, SleepDelay, TimeShift, TopBottomCorrection, TopBottomCorrectionRotation,
    TotalSpace, Username, VideoStitching, VisibilityReduction, WhiteBalance, WlanChannel,
    WlanFrequency
  ]

  /** The tokens of lines 86-97. */
  const Block6: seq<Entry> := [
    AiAutoThumbnailSupport, ApertureSupport, AuthenticationSupport, BracketNumberSupport,
    BitrateSupport, BluetoothPowerSupport, CaptureIntervalSupport, CaptureModeSupport,
    CameraModeSupport, CameraControlSourceSupport, CaptureNumberSupport, ColorTemperatureSupport
  ]

  /** The tokens of lines 98-109. */
  const Block7: seq<Entry> := [
    CompositeShootingOutputIntervalSupport, CompositeShootingTimeSupport, ContinuousNumberSupport,
    ExposureCompensationSupport, ExposureDelaySupport, ExposureProgramSupport, FaceDetectSupport,
    FileFormatSupport, FilterSupport, FunctionSupport, MicrophoneGainSupport,
    GpsTagRecordingSupport
  ]

  /** The tokens of lines 110-121. */
  const Block8: seq<Entry> := [
    HdmiResolutionSupport, ImageStitchingSupport, IsoSupport, IsoAutoHighLimitSupport,
    LanguageSupport, MaxRecordableTimeSupport, MicrophoneSupport, MicrophoneChannelSupport,
    NetworkTypeSupport, OffDelaySupport, PowerSavingSupport, PreviewFormatSupport
  ]

  /** The tokens of lines 122-131. */
  const Block9: seq<Entry> := [
    ShootingMethodSupport, ShutterSpeedSupport, ShutterVolumeSupport, SleepDelaySupport,
    TimeShiftSupport, TopBottomCorrectionSupport, TopBottomCorrectionRotationSupport,
    VideoStitchingSupport, WhiteBalanceSupport, WlanFrequencySupport
  ]

  /** The option tokens, in source order. */
  const Options: seq<Entry> := Block1 + Block2 + Block3 + Block4 + Block5

  /** The support tokens, in source order. */
  const Supports: seq<Entry> := Block6 + Block7 + Block8 + Block9

  /** The whole table, in source order. */
  const Table: seq<Entry> := Block1 + Block2 + Block3 + Block4 + Block5 + Block6 + Block7 + Block8 + Block9

  lemma TableBlocks()
    ensures Table == Block1 + Block2 + Block3 + Block4 + Block5 + Block6 + Block7 + Block8 + Block9
    ensures Options == Block1 + Block2 + Block3 + Block4 + Block5
    ensures Supports == Block6 + Block7 + Block8 + Block9
  {
  }

  lemma AiAutoThumbnailSupportName()
    ensures AiAutoThumbnailSupport.name == AiAutoThumbnail.name + Support
  {
  }

  lemma ApertureSupportName()
    ensures ApertureSupport.name == Aperture.name + Support
  {
  }

  lemma AuthenticationSupportName()
    ensures AuthenticationSupport.name == Authentication.name + Support
  {
  }

  lemma BracketNumberSupportName()
    ensures BracketNumberSupport.name == "_bracketNumber" + Support
  {
  }

  lemma BitrateSupportName()
    ensures BitrateSupport.name == Bitrate.name + Support
  {
  }

  lemma BluetoothPowerSupportName()
    ensures BluetoothPowerSupport.name == BluetoothPower.name + Support
  {
  }

  lemma CaptureIntervalSupportName()
    ensures CaptureIntervalSupport.name == CaptureInterval.name + Support
  {
  }

  lemma CaptureModeSupportName()
    ensures CaptureModeSupport.name == CaptureMode.name + Support
  {
  }

  lemma CameraModeSupportName()
    ensures CameraModeSupport.name == CameraMode.name + Support
  {
  }

  lemma CameraControlSourceSupportName()
    ensures CameraControlSourceSupport.name == CameraControlSource.name + Support
  {
  }

  lemma CaptureNumberSupportName()
    ensures CaptureNumberSupport.name == CaptureNumber.name + Support
  {
  }

  lemma ColorTemperatureSupportName()
    ensures ColorTemperatureSupport.name == ColorTemperature.name + Support
  {
  }

  lemma CompositeShootingOutputIntervalSupportName()
    ensures CompositeShootingOutputIntervalSupport.name == CompositeShootingOutputInterval.name + Support
  {
  }

  lemma CompositeShootingTimeSupportName()
    ensures CompositeShootingTimeSupport.name == CompositeShootingTime.name + Support
  {
  }

  lemma ContinuousNumberSupportName()
    ensures ContinuousNumberSupport.name == ContinuousNumber.name + Support
  {
  }

  lemma ExposureCompensationSupportName()
    ensures ExposureCompensationSupport.name == ExposureCompensation.name + Support
  {
  }

  lemma ExposureDelaySupportName()
    ensures ExposureDelaySupport.name == ExposureDelay.name + Support
  {
  }

  lemma ExposureProgramSupportName()
    ensures ExposureProgramSupport.name == ExposureProgram.name + Support
  {
  }

  lemma FaceDetectSupportName()
    ensures FaceDetectSupport.name == FaceDetect.name + Support
  {
  }

  lemma FileFormatSupportName()
    ensures FileFormatSupport.name == FileFormat.name + Support
  {
  }

  lemma FilterSupportName()
    ensures FilterSupport.name == Filter.name + Support
  {
  }

  lemma FunctionSupportName()
    ensures FunctionSupport.name == Function.name + Support
  {
  }

  lemma MicrophoneGainSupportName()
    ensures MicrophoneGainSupport.name == MicrophoneGain.name + Support
  {
  }

  lemma GpsTagRecordingSupportName()
    ensures GpsTagRecordingSupport.name == GpsTagRecording.name + Support
  {
  }

  lemma HdmiResolutionSupportName()
    ensures HdmiResolutionSupport.name == HdmiResolution.name + Support
  {
  }

  lemma ImageStitchingSupportName()
    ensures ImageStitchingSupport.name == ImageStitching.name + Support
  {
  }

  lemma IsoSupportName()
    ensures IsoSupport.name == Iso.name + Support
  {
  }

  lemma IsoAutoHighLimitSupportName()
    ensures IsoAutoHighLimitSupport.name == IsoAutoHighLimit.name + Support
  {
  }

  lemma LanguageSupportName()
    ensures LanguageSupport.name == Language.name + Support
  {
  }

  lemma MaxRecordableTimeSupportName()
    ensures MaxRecordableTimeSupport.name == MaxRecordableTime.name + Support
  {
  }

  lemma MicrophoneSupportName()
    ensures MicrophoneSupport.name == Microphone.name + Support
  {
  }

  lemma MicrophoneChannelSupportName()
    ensures MicrophoneChannelSupport.name == MicrophoneChannel.name + Support
  {
  }

  lemma NetworkTypeSupportName()
    ensures NetworkTypeSupport.name == NetworkType.name + Support
  {
  }

  lemma OffDelaySupportName()
    ensures OffDelaySupport.name == OffDelay.name + Support
  {
  }

  lemma PowerSavingSupportName()
    ensures PowerSavingSupport.name == PowerSaving.name + Support
  {
  }

  lemma PreviewFormatSupportName()
    ensures PreviewFormatSupport.name == PreviewFormat.name + Support
  {
  }

  lemma ShootingMethodSupportName()
    ensures ShootingMethodSupport.name == ShootingMethod.name + Support
  {
  }

  lemma ShutterSpeedSupportName()
    ensures ShutterSpeedSupport.name == ShutterSpeed.name + Support
  {
  }

  lemma ShutterVolumeSupportName()
    ensures ShutterVolumeSupport.name == ShutterVolume.name + Support
  {
  }

  lemma SleepDelaySupportName()
    ensures SleepDelaySupport.name == SleepDelay.name + Support
  {
  }

  lemma TimeShiftSupportName()
    ensures TimeShiftSupport.name == TimeShift.name + Support
  {
  }

  lemma TopBottomCorrectionSupportName()
    ensures TopBottomCorrectionSupport.name == TopBottomCorrection.name + Support
  {
  }

  lemma TopBottomCorrectionRotationSupportName()
    ensures TopBottomCorrectionRotationSupport.name == TopBottomCorrectionRotation.name + Support
  {
  }

  lemma VideoStitchingSupportName()
    ensures VideoStitchingSupport.name == VideoStitching.name + Support
  {
  }

  lemma WhiteBalanceSupportName()
    ensures WhiteBalanceSupport.name == WhiteBalance.name + Support
  {
  }

  lemma WlanFrequencySupportName()
    ensures WlanFrequencySupport.name == WlanFrequency.name + Support
  {
  }

  /** Every support token is named as the source names it: its base token's name (or a literal) followed by `SUPPORT`. */
  lemma SupportNames()
    ensures AiAutoThumbnailSupport.name == AiAutoThumbnail.name + Support
    ensures ApertureSupport.name == Aperture.name + Support
    ensures AuthenticationSupport.name == Authentication.name + Support
    ensures BracketNumberSupport.name == "_bracketNumber" + Support
    ensures BitrateSupport.name == Bitrate.name + Support
    ensures BluetoothPowerSupport.name == BluetoothPower.name + Support
    ensures CaptureIntervalSupport.name == CaptureInterval.name + Support
    ensures CaptureModeSupport.name == CaptureMode.name + Support
    ensures CameraModeSupport.name == CameraMode.name + Support
    ensures CameraControlSourceSupport.name == CameraControlSource.name + Support
    ensures CaptureNumberSupport.name == CaptureNumber.name + Support
    ensures ColorTemperatureSupport.name == ColorTemperature.name + Support
    ensures CompositeShootingOutputIntervalSupport.name == CompositeShootingOutputInterval.name + Support
    ensures CompositeShootingTimeSupport.name == CompositeShootingTime.name + Support
    ensures ContinuousNumberSupport.name == ContinuousNumber.name + Support
    ensures ExposureCompensationSupport.name == ExposureCompensation.name + Support
    ensures ExposureDelaySupport.name == ExposureDelay.name + Support
    ensures ExposureProgramSupport.name == ExposureProgram.name + Support
    ensures FaceDetectSupport.name == FaceDetect.name + Support
    ensures FileFormatSupport.name == FileFormat.name + Support
    ensures FilterSupport.name == Filter.name + Support
    ensures FunctionSupport.name == Function.name + Support
    ensures MicrophoneGainSupport.name == MicrophoneGain.name + Support
    ensures GpsTagRecordingSupport.name == GpsTagRecording.name + Support
    ensures HdmiResolutionSupport.name == HdmiResolution.name + Support
    ensures ImageStitchingSupport.name == ImageStitching.name + Support
    ensures IsoSupport.name == Iso.name + Support
    ensures IsoAutoHighLimitSupport.name == IsoAutoHighLimit.name + Support
    ensures LanguageSupport.name == Language.name + Support
    ensures MaxRecordableTimeSupport.name == MaxRecordableTime.name + Support
    ensures MicrophoneSupport.name == Microphone.name + Support
    ensures MicrophoneChannelSupport.name == MicrophoneChannel.name + Support
    ensures NetworkTypeSupport.name == NetworkType.name + Support
    ensures OffDelaySupport.name == OffDelay.name + Support
    ensures PowerSavingSupport.name == PowerSaving.name + Support
    ensures PreviewFormatSupport.name == PreviewFormat.name + Support
    ensures ShootingMethodSupport.name == ShootingMethod.name + Support
    ensures ShutterSpeedSupport.name == ShutterSpeed.name + Support
    ensures ShutterVolumeSupport.name == ShutterVolume.name + Support
    ensures SleepDelaySupport.name == SleepDelay.name + Support
    ensures TimeShiftSupport.name == TimeShift.name + Support
    ensures TopBottomCorrectionSupport.name == TopBottomCorrection.name + Support
    ensures TopBottomCorrectionRotationSupport.name == TopBottomCorrectionRotation.name + Support
    ensures VideoStitchingSupport.name == VideoStitching.name + Support
    ensures WhiteBalanceSupport.name == WhiteBalance.name + Support
    ensures WlanFrequencySupport.name == WlanFrequency.name + Support
  {
    hide *;
    AiAutoThumbnailSupportName();
    ApertureSupportName();
    AuthenticationSupportName();
    BracketNumberSupportName();
    BitrateSupportName();
    BluetoothPowerSupportName();
    CaptureIntervalSupportName();
    CaptureModeSupportName();
    CameraModeSupportName();
    CameraControlSourceSupportName();
    CaptureNumberSupportName();
    ColorTemperatureSupportName();
    CompositeShootingOutputIntervalSupportName();
    CompositeShootingTimeSupportName();
    ContinuousNumberSupportName();
    ExposureCompensationSupportName();
    ExposureDelaySupportName();
    ExposureProgramSupportName();
    FaceDetectSupportName();
    FileFormatSupportName();
    FilterSupportName();
    FunctionSupportName();
    MicrophoneGainSupportName();
    GpsTagRecordingSupportName();
    HdmiResolutionSupportName();
    ImageStitchingSupportName();
    IsoSupportName();
    IsoAutoHighLimitSupportName();
    LanguageSupportName();
    MaxRecordableTimeSupportName();
    MicrophoneSupportName();
    MicrophoneChannelSupportName();
    NetworkTypeSupportName();
    OffDelaySupportName();
    PowerSavingSupportName();
    PreviewFormatSupportName();
    ShootingMethodSupportName();
    ShutterSpeedSupportName();
    ShutterVolumeSupportName();
    SleepDelaySupportName();
    TimeShiftSupportName();
    TopBottomCorrectionSupportName();
    TopBottomCorrectionRotationSupportName();
    VideoStitchingSupportName();
    WhiteBalanceSupportName();
    WlanFrequencySupportName();
  }

  /** The support tokens read as a single value; every other support token is read as a list. */
  const ScalarSupportFields: set<string> := {"BRACKET_NUMBER_SUPPORT", "CAPTURE_INTERVAL_SUPPORT", "CAPTURE_NUMBER_SUPPORT", "COLOR_TEMPERATURE_SUPPORT", "CONTINUOUS_NUMBER_SUPPORT", "SHUTTER_VOLUME_SUPPORT", "TIME_SHIFT_SUPPORT", "TOP_BOTTOM_CORRECTION_ROTATION_SUPPORT"}

  lemma Block6Kinds()
    ensures KindsAsListed(Block6, ScalarSupportFields)
  {
  }

  lemma Block7Kinds()
    ensures KindsAsListed(Block7, ScalarSupportFields)
  {
  }

  lemma Block8Kinds()
    ensures KindsAsListed(Block8, ScalarSupportFields)
  {
  }

  lemma Block9Kinds()
    ensures KindsAsListed(Block9, ScalarSupportFields)
  {
  }

  /** The support tokens whose kind is `Scalar` are exactly those listed. */
  lemma SupportKinds()
    ensures KindsAsListed(Supports, ScalarSupportFields)
  {
    hide *;
    TableBlocks();
    Block6Kinds();
    Block7Kinds();
    Block8Kinds();
    Block9Kinds();
    KindsConcat(Block6, Block7, ScalarSupportFields);
    KindsConcat(Block6 + Block7, Block8, ScalarSupportFields);
    KindsConcat(Block6 + Block7 + Block8, Block9, ScalarSupportFields);
  }

  lemma Block1LacksBracketNumber()
    ensures NoneNamed(Block1, "_bracketNumber")
  {
  }

  lemma Block2LacksBracketNumber()
    ensures NoneNamed(Block2, "_bracketNumber")
  {
  }

  lemma Block3LacksBracketNumber()
    ensures NoneNamed(Block3, "_bracketNumber")
  {
  }

  lemma Block4LacksBracketNumber()
    ensures NoneNamed(Block4, "_bracketNumber")
  {
  }

  lemma Block5LacksBracketNumber()
    ensures NoneNamed(Block5, "_bracketNumber")
  {
  }

  /** No option token is named `_bracketNumber`, the stem of the bracket-number support token. */
  lemma NoBracketNumberOption()
    ensures NoneNamed(Options, "_bracketNumber")
  {
    hide *;
    TableBlocks();
    Block1LacksBracketNumber();
    Block2LacksBracketNumber();
    Block3LacksBracketNumber();
    Block4LacksBracketNumber();
    Block5LacksBracketNumber();
    NoneNamedConcat(Block1, Block2, "_bracketNumber");
    NoneNamedConcat(Block1 + Block2, Block3, "_bracketNumber");
    NoneNamedConcat(Block1 + Block2 + Block3, Block4, "_bracketNumber");
    NoneNamedConcat(Block1 + Block2 + Block3 + Block4, Block5, "_bracketNumber");
  }

  lemma Block1Distinct()
    ensures DistinctNames(Block1)
  {
  }

  lemma Block2Distinct()
    ensures DistinctNames(Block2)
  {
  }

  lemma Block3Distinct()
    ensures DistinctNames(Block3)
  {
  }

  lemma Block4Distinct()
    ensures DistinctNames(Block4)
  {
  }

  lemma Block5Distinct()
    ensures DistinctNames(Block5)
  {
  }

  lemma Block6Distinct()
    ensures DistinctNames(Block6)
  {
  }

  lemma Block7Distinct()
    ensures DistinctNames(Block7)
  {
  }

  lemma Block8Distinct()
    ensures DistinctNames(Block8)
  {
  }

  lemma Block9Distinct()
    ensures DistinctNames(Block9)
  {
  }

  lemma Blocks1And2Disjoint()
    ensures DisjointNames(Block1, Block2)
  {
  }

  lemma Blocks1And3Disjoint()
    ensures DisjointNames(Block1, Block3)
  {
  }

  lemma Blocks2And3Disjoint()
    ensures DisjointNames(Block2, Block3)
  {
  }

  lemma Blocks1And4Disjoint()
    ensures DisjointNames(Block1, Block4)
  {
  }

  lemma Blocks2And4Disjoint()
    ensures DisjointNames(Block2, Block4)
  {
  }

  lemma Blocks3And4Disjoint()
    ensures DisjointNames(Block3, Block4)
  {
  }

  lemma Blocks1And5Disjoint()
    ensures DisjointNames(Block1, Block5)
  {
  }

  lemma Blocks2And5Disjoint()
    ensures DisjointNames(Block2, Block5)
  {
  }

  lemma Blocks3And5Disjoint()
    ensures DisjointNames(Block3, Block5)
  {
  }

  lemma Blocks4And5Disjoint()
    ensures DisjointNames(Block4, Block5)
  {
  }

  lemma Blocks1And6Disjoint()
    ensures DisjointNames(Block1, Block6)
  {
  }

  lemma Blocks2And6Disjoint()
    ensures DisjointNames(Block2, Block6)
  {
  }

  lemma Blocks3And6Disjoint()
    ensures DisjointNames(Block3, Block6)
  {
  }

  lemma Blocks4And6Disjoint()
    ensures DisjointNames(Block4, Block6)
  {
  }

  lemma Blocks5And6Disjoint()
    ensures DisjointNames(Block5, Block6)
  {
  }

  lemma Blocks1And7Disjoint()
    ensures DisjointNames(Block1, Block7)
  {
  }

  lemma Blocks2And7Disjoint()
    ensures DisjointNames(Block2, Block7)
  {
  }

  lemma Blocks3And7Disjoint()
    ensures DisjointNames(Block3, Block7)
  {
  }

  lemma Blocks4And7Disjoint()
    ensures DisjointNames(Block4, Block7)
  {
  }

  lemma Blocks5And7Disjoint()
    ensures DisjointNames(Block5, Block7)
  {
  }

  lemma Blocks6And7Disjoint()
    ensures DisjointNames(Block6, Block7)
  {
  }

  lemma Blocks1And8Disjoint()
    ensures DisjointNames(Block1, Block8)
  {
  }

  lemma Blocks2And8Disjoint()
    ensures DisjointNames(Block2, Block8)
  {
  }

  lemma Blocks3And8Disjoint()
    ensures DisjointNames(Block3, Block8)
  {
  }

  lemma Blocks4And8Disjoint()
    ensures DisjointNames(Block4, Block8)
  {
  }

  lemma Blocks5And8Disjoint()
    ensures DisjointNames(Block5, Block8)
  {
  }

  lemma Blocks6And8Disjoint()
    ensures DisjointNames(Block6, Block8)
  {
  }

  lemma Blocks7And8Disjoint()
    ensures DisjointNames(Block7, Block8)
  {
  }

  lemma Blocks1And9Disjoint()
    ensures DisjointNames(Block1, Block9)
  {
  }

  lemma Blocks2And9Disjoint()
    ensures DisjointNames(Block2, Block9)
  {
  }

  lemma Blocks3And9Disjoint()
    ensures DisjointNames(Block3, Block9)
  {
  }

  lemma Blocks4And9Disjoint()
    ensures DisjointNames(Block4, Block9)
  {
  }

  lemma Blocks5And9Disjoint()
    ensures DisjointNames(Block5, Block9)
  {
  }

  lemma Blocks6And9Disjoint()
    ensures DisjointNames(Block6, Block9)
  {
  }

  lemma Blocks7And9Disjoint()
    ensures DisjointNames(Block7, Block9)
  {
  }

  lemma Blocks8And9Disjoint()
    ensures DisjointNames(Block8, Block9)
  {
  }

  /** No two tokens of the table share a wire name. */
  lemma NamesDistinct()
    ensures DistinctNames(Table)
  {
    hide *;
    TableBlocks();
    Block1Distinct();
    Block2Distinct();
    Blocks1And2Disjoint();
    DistinctConcat(Block1, Block2);
    Block3Distinct();
    Blocks1And3Disjoint();
    Blocks2And3Disjoint();
    DisjointConcat(Block1, Block2, Block3);
    DistinctConcat(Block1 + Block2, Block3);
    Block4Distinct();
    Blocks1And4Disjoint();
    Blocks2And4Disjoint();
    Blocks3And4Disjoint();
    DisjointConcat(Block1, Block2, Block4);
    DisjointConcat(Block1 + Block2, Block3, Block4);
    DistinctConcat(Block1 + Block2 + Block3, Block4);
    Block5Distinct();
    Blocks1And5Disjoint();
    Blocks2And5Disjoint();
    Blocks3And5Disjoint();
    Blocks4And5Disjoint();
    DisjointConcat(Block1, Block2, Block5);
    DisjointConcat(Block1 + Block2, Block3, Block5);
    DisjointConcat(Block1 + Block2 + Block3, Block4, Block5);
    DistinctConcat(Block1 + Block2 + Block3 + Block4, Block5);
    Block6Distinct();
    Blocks1And6Disjoint();
    Blocks2And6Disjoint();
    Blocks3And6Disjoint();
    Blocks4And6Disjoint();
    Blocks5And6Disjoint();
    DisjointConcat(Block1, Block2, Block6);
    DisjointConcat(Block1 + Block2, Block3, Block6);
    DisjointConcat(Block1 + Block2 + Block3, Block4, Block6);
    DisjointConcat(Block1 + Block2 + Block3 + Block4, Block5, Block6);
    DistinctConcat(Block1 + Block2 + Block3 + Block4 + Block5, Block6);
    Block7Distinct();
    Blocks1And7Disjoint();
    Blocks2And7Disjoint();
    Blocks3And7Disjoint();
    Blocks4And7Disjoint();
    Blocks5And7Disjoint();
    Blocks6And7Disjoint();
    DisjointConcat(Block1, Block2, Block7);
    DisjointConcat(Block1 + Block2, Block3, Block7);
    DisjointConcat(Block1 + Block2 + Block3, Block4, Block7);
    DisjointConcat(Block1 + Block2 + Block3 + Block4, Block5, Block7);
    DisjointConcat(Block1 + Block2 + Block3 + Block4 + Block5, Block6, Block7);
    DistinctConcat(Block1 + Block2 + Block3 + Block4 + Block5 + Block6, Block7);
    Block8Distinct();
    Blocks1And8Disjoint();
    Blocks2And8Disjoint();
    Blocks3And8Disjoint();
    Blocks4And8Disjoint();
    Blocks5And8Disjoint();
    Blocks6And8Disjoint();
    Blocks7And8Disjoint();
    DisjointConcat(Block1, Block2, Block8);
    DisjointConcat(Block1 + Block2, Block3, Block8);
    DisjointConcat(Block1 + Block2 + Block3, Block4, Block8);
    DisjointConcat(Block1 + Block2 + Block3 + Block4, Block5, Block8);
    DisjointConcat(Block1 + Block2 + Block3 + Block4 + Block5, Block6, Block8);
    DisjointConcat(Block1 + Block2 + Block3 + Block4 + Block5 + Block6, Block7, Block8);
    DistinctConcat(Block1 + Block2 + Block3 + Block4 + Block5 + Block6 + Block7, Block8);
    Block9Distinct();
    Blocks1And9Disjoint();
    Blocks2And9Disjoint();
    Blocks3And9Disjoint();
    Blocks4And9Disjoint();
    Blocks5And9Disjoint();
    Blocks6And9Disjoint();
    Blocks7And9Disjoint();
    Blocks8And9Disjoint();
    DisjointConcat(Block1, Block2, Block9);
    DisjointConcat(Block1 + Block2, Block3, Block9);
    DisjointConcat(Block1 + Block2 + Block3, Block4, Block9);
    DisjointConcat(Block1 + Block2 + Block3 + Block4, Block5, Block9);
    DisjointConcat(Block1 + Block2 + Block3 + Block4 + Block5, Block6, Block9);
    DisjointConcat(Block1 + Block2 + Block3 + Block4 + Block5 + Block6, Block7, Block9);
    DisjointConcat(Block1 + Block2 + Block3 + Block4 + Block5 + Block6 + Block7, Block8, Block9);
    DistinctConcat(Block1 + Block2 + Block3 + Block4 + Block5 + Block6 + Block7 + Block8, Block9);
  }

  /** `ISO` and `ISO_AUTO_HIGH_LIMIT` are separate entries with different wire names that declare the same value type. */
  lemma IsoTokensShareType()
    ensures Iso in Table && IsoAutoHighLimit in Table
    ensures Iso.name != IsoAutoHighLimit.name && Iso.valueType == IsoAutoHighLimit.valueType
  {
  }

}
