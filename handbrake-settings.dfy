/**
 * `HandBrakeSettings`: eighteen scalar settings and a list of preset files, each behind a
 * setter that stores the value and raises `PropertyChanged` only when the value differs.
 * The raised notifications are recorded as the list of property names, in order.
 */
module HandBrakeOptions {
  import opened Common

  /** The properties, named as the `PropertyChanged` events name them. */
  datatype Property =
    | HandBrakeCLIPath | DefaultPreset | OutputFormat | QualityValue | TwoPass | TurboFirstPass | VideoEncoder | AudioEncoder | AudioBitrate | AudioMixdown | IncludeChapterMarkers | OptimizeForWeb | IPodCompatible | AdditionalArguments | Verbosity | UpdateCheckEnabled | SendFileDone | CustomPresetFile
    | CustomPresetFiles

  /** The values of the scalar properties, in declaration order. */
  datatype HandBrakeValues = HandBrakeValues(
    handBrakeCliPath: string,
    defaultPreset: string,
    outputFormat: string,
    qualityValue: int,
    twoPass: bool,
    turboFirstPass: bool,
    videoEncoder: string,
    audioEncoder: string,
    audioBitrate: int,
    audioMixdown: string,
    includeChapterMarkers: bool,
    optimizeForWeb: bool,
    iPodCompatible: bool,
    additionalArguments: string,
    verbosity: int,
    updateCheckEnabled: bool,
    sendFileDone: bool,
    customPresetFile: string)

  /** The field initialisers. */
  const Defaults := HandBrakeValues("HandBrakeCLI", "Fast 1080p30", "mp4", 22, false, true, "x264",
                                    "av_aac", 160, "stereo", true, true, false, "", 1, false, false, "")

  /** The notification log after one setter call: the property's name is added if the value differed. */
  function Raise(log: seq<Property>, name: Property, differs: bool): seq<Property>
  {
    if differs then log + [name] else log
  }

  /** `HandBrakeSettings`: one backing field per property. */
  class HandBrakeSettings {
    var handBrakeCliPath: string
    var defaultPreset: string
    var outputFormat: string
    var qualityValue: int
    var twoPass: bool
    var turboFirstPass: bool
    var videoEncoder: string
    var audioEncoder: string
    var audioBitrate: int
    var audioMixdown: string
    var includeChapterMarkers: bool
    var optimizeForWeb: bool
    var iPodCompatible: bool
    var additionalArguments: string
    var verbosity: int
    var updateCheckEnabled: bool
    var sendFileDone: bool
    var customPresetFile: string
    var customPresetFiles: seq<string>
    /** The properties named by the `PropertyChanged` events raised so far. */
    var raised: seq<Property>

    /** The scalar properties' current values. */
    function Values(): HandBrakeValues
      reads this
    {
      HandBrakeValues(handBrakeCliPath, defaultPreset, outputFormat, qualityValue, twoPass, turboFirstPass, videoEncoder, audioEncoder, audioBitrate, audioMixdown, includeChapterMarkers, optimizeForWeb, iPodCompatible, additionalArguments, verbosity, updateCheckEnabled, sendFileDone, customPresetFile)
    }

    /** A new object: the field initialisers, an empty file list, nothing raised. */
    constructor()
      ensures Values() == Defaults && customPresetFiles == [] && raised == []
    {
      handBrakeCliPath := Defaults.handBrakeCliPath;
      defaultPreset := Defaults.defaultPreset;
      outputFormat := Defaults.outputFormat;
      qualityValue := Defaults.qualityValue;
      twoPass := Defaults.twoPass;
      turboFirstPass := Defaults.turboFirstPass;
      videoEncoder := Defaults.videoEncoder;
      audioEncoder := Defaults.audioEncoder;
      audioBitrate := Defaults.audioBitrate;
      audioMixdown := Defaults.audioMixdown;
      includeChapterMarkers := Defaults.includeChapterMarkers;
      optimizeForWeb := Defaults.optimizeForWeb;
      iPodCompatible := Defaults.iPodCompatible;
      additionalArguments := Defaults.additionalArguments;
      verbosity := Defaults.verbosity;
      updateCheckEnabled := Defaults.updateCheckEnabled;
      sendFileDone := Defaults.sendFileDone;
      customPresetFile := Defaults.customPresetFile;
      customPresetFiles := [];
      raised := [];
    }

    method SetHandBrakeCliPath(value: string)
      modifies this`handBrakeCliPath, this`raised
      ensures handBrakeCliPath == value
      ensures raised == Raise(old(raised), HandBrakeCLIPath, old(handBrakeCliPath) != value)
    {
      if handBrakeCliPath != value {
        handBrakeCliPath := value;
        raised := raised + [HandBrakeCLIPath];
      }
    }

    method SetDefaultPreset(value: string)
      modifies this`defaultPreset, this`raised
      ensures defaultPreset == value
      ensures raised == Raise(old(raised), DefaultPreset, old(defaultPreset) != value)
    {
      if defaultPreset != value {
        defaultPreset := value;
        raised := raised + [DefaultPreset];
      }
    }

    method SetOutputFormat(value: string)
      modifies this`outputFormat, this`raised
      ensures outputFormat == value
      ensures raised == Raise(old(raised), OutputFormat, old(outputFormat) != value)
    {
      if outputFormat != value {
        outputFormat := value;
        raised := raised + [OutputFormat];
      }
    }

    method SetQualityValue(value: int)
      modifies this`qualityValue, this`raised
      ensures qualityValue == value
      ensures raised == Raise(old(raised), QualityValue, old(qualityValue) != value)
    {
      if qualityValue != value {
        qualityValue := value;
        raised := raised + [QualityValue];
      }
    }

    method SetTwoPass(value: bool)
      modifies this`twoPass, this`raised
      ensures twoPass == value
      ensures raised == Raise(old(raised), TwoPass, old(twoPass) != value)
    {
      if twoPass != value {
        twoPass := value;
        raised := raised + [TwoPass];
      }
    }

    method SetTurboFirstPass(value: bool)
      modifies this`turboFirstPass, this`raised
      ensures turboFirstPass == value
      ensures raised == Raise(old(raised), TurboFirstPass, old(turboFirstPass) != value)
    {
      if turboFirstPass != value {
        turboFirstPass := value;
        raised := raised + [TurboFirstPass];
      }
    }

    method SetVideoEncoder(value: string)
      modifies this`videoEncoder, this`raised
      ensures videoEncoder == value
      ensures raised == Raise(old(raised), VideoEncoder, old(videoEncoder) != value)
    {
      if videoEncoder != value {
        videoEncoder := value;
        raised := raised + [VideoEncoder];
      }
    }

    method SetAudioEncoder(value: string)
      modifies this`audioEncoder, this`raised
      ensures audioEncoder == value
      ensures raised == Raise(old(raised), AudioEncoder, old(audioEncoder) != value)
    {
      if audioEncoder != value {
        audioEncoder := value;
        raised := raised + [AudioEncoder];
      }
    }

    method SetAudioBitrate(value: int)
      modifies this`audioBitrate, this`raised
      ensures audioBitrate == value
      ensures raised == Raise(old(raised), AudioBitrate, old(audioBitrate) != value)
    {
      if audioBitrate != value {
        audioBitrate := value;
        raised := raised + [AudioBitrate];
      }
    }

    method SetAudioMixdown(value: string)
      modifies this`audioMixdown, this`raised
      ensures audioMixdown == value
      ensures raised == Raise(old(raised), AudioMixdown, old(audioMixdown) != value)
    {
      if audioMixdown != value {
        audioMixdown := value;
        raised := raised + [AudioMixdown];
      }
    }

    method SetIncludeChapterMarkers(value: bool)
      modifies this`includeChapterMarkers, this`raised
      ensures includeChapterMarkers == value
      ensures raised == Raise(old(raised), IncludeChapterMarkers, old(includeChapterMarkers) != value)
    {
      if includeChapterMarkers != value {
        includeChapterMarkers := value;
        raised := raised + [IncludeChapterMarkers];
      }
    }

    method SetOptimizeForWeb(value: bool)
      modifies this`optimizeForWeb, this`raised
      ensures optimizeForWeb == value
      ensures raised == Raise(old(raised), OptimizeForWeb, old(optimizeForWeb) != value)
    {
      if optimizeForWeb != value {
        optimizeForWeb := value;
        raised := raised + [OptimizeForWeb];
      }
    }

    method SetIPodCompatible(value: bool)
      modifies this`iPodCompatible, this`raised
      ensures iPodCompatible == value
      ensures raised == Raise(old(raised), IPodCompatible, old(iPodCompatible) != value)
    {
      if iPodCompatible != value {
        iPodCompatible := value;
        raised := raised + [IPodCompatible];
      }
    }

    method SetAdditionalArguments(value: string)
      modifies this`additionalArguments, this`raised
      ensures additionalArguments == value
      ensures raised == Raise(old(raised), AdditionalArguments, old(additionalArguments) != value)
    {
      if additionalArguments != value {
        additionalArguments := value;
        raised := raised + [AdditionalArguments];
      }
    }

    method SetVerbosity(value: int)
      modifies this`verbosity, this`raised
      ensures verbosity == value
      ensures raised == Raise(old(raised), Verbosity, old(verbosity) != value)
    {
      if verbosity != value {
        verbosity := value;
        raised := raised + [Verbosity];
      }
    }

    method SetUpdateCheckEnabled(value: bool)
      modifies this`updateCheckEnabled, this`raised
      ensures updateCheckEnabled == value
      ensures raised == Raise(old(raised), UpdateCheckEnabled, old(updateCheckEnabled) != value)
    {
      if updateCheckEnabled != value {
        updateCheckEnabled := value;
        raised := raised + [UpdateCheckEnabled];
      }
    }

    method SetSendFileDone(value: bool)
      modifies this`sendFileDone, this`raised
      ensures sendFileDone == value
      ensures raised == Raise(old(raised), SendFileDone, old(sendFileDone) != value)
    {
      if sendFileDone != value {
        sendFileDone := value;
        raised := raised + [SendFileDone];
      }
    }

    method SetCustomPresetFile(value: string)
      modifies this`customPresetFile, this`raised
      ensures customPresetFile == value
      ensures raised == Raise(old(raised), CustomPresetFile, old(customPresetFile) != value)
    {
      if customPresetFile != value {
        customPresetFile := value;
        raised := raised + [CustomPresetFile];
      }
    }

    /**
     * The `CustomPresetFiles` setter: null stores an empty list. Every caller passes a new
     * list or null, which is never the stored reference, so it always stores and raises.
     */
    method SetCustomPresetFiles(files: Option<seq<string>>)
      modifies this`customPresetFiles, this`raised
      ensures customPresetFiles == files.GetOr([])
      ensures raised == old(raised) + [CustomPresetFiles]
    {
      customPresetFiles := files.GetOr([]);
      raised := raised + [CustomPresetFiles];
    }

    /** Writes the CLI path, default preset and output format of `b` through their setters. */
    method AssignGeneral(b: HandBrakeValues)
      modifies this`handBrakeCliPath, this`defaultPreset, this`outputFormat, this`raised
      ensures handBrakeCliPath == b.handBrakeCliPath && defaultPreset == b.defaultPreset && outputFormat == b.outputFormat
    {
      SetHandBrakeCliPath(b.handBrakeCliPath);
      SetDefaultPreset(b.defaultPreset);
      SetOutputFormat(b.outputFormat);
    }

    /** Writes the video options of `b` through their setters. */
    method AssignVideo(b: HandBrakeValues)
      modifies this`qualityValue, this`twoPass, this`turboFirstPass, this`videoEncoder, this`raised
      ensures qualityValue == b.qualityValue && twoPass == b.twoPass && turboFirstPass == b.turboFirstPass && videoEncoder == b.videoEncoder
    {
      SetQualityValue(b.qualityValue);
      SetTwoPass(b.twoPass);
      SetTurboFirstPass(b.turboFirstPass);
      SetVideoEncoder(b.videoEncoder);
    }

    /** Writes the audio options of `b` through their setters. */
    method AssignAudio(b: HandBrakeValues)
      modifies this`audioEncoder, this`audioBitrate, this`audioMixdown, this`raised
      ensures audioEncoder == b.audioEncoder && audioBitrate == b.audioBitrate && audioMixdown == b.audioMixdown
    {
      SetAudioEncoder(b.audioEncoder);
      SetAudioBitrate(b.audioBitrate);
      SetAudioMixdown(b.audioMixdown);
    }

    /** Writes the container options of `b` through their setters. */
    method AssignContainer(b: HandBrakeValues)
      modifies this`includeChapterMarkers, this`optimizeForWeb, this`iPodCompatible, this`raised
      ensures includeChapterMarkers == b.includeChapterMarkers && optimizeForWeb == b.optimizeForWeb && iPodCompatible == b.iPodCompatible
    {
      SetIncludeChapterMarkers(b.includeChapterMarkers);
      SetOptimizeForWeb(b.optimizeForWeb);
      SetIPodCompatible(b.iPodCompatible);
    }

    /** Writes the remaining options of `b` through their setters. */
    method AssignAdvanced(b: HandBrakeValues)
      modifies this`additionalArguments, this`verbosity, this`updateCheckEnabled, this`sendFileDone, this`customPresetFile, this`raised
      ensures additionalArguments == b.additionalArguments && verbosity == b.verbosity && updateCheckEnabled == b.updateCheckEnabled && sendFileDone == b.sendFileDone && customPresetFile == b.customPresetFile
    {
      SetAdditionalArguments(b.additionalArguments);
      SetVerbosity(b.verbosity);
      SetUpdateCheckEnabled(b.updateCheckEnabled);
      SetSendFileDone(b.sendFileDone);
      SetCustomPresetFile(b.customPresetFile);
    }

    /**
     * Writes every scalar of `b` through its setter, in declaration order, then the file
     * list: the object initializer of `Clone`, and the body of the settings editor's `Save`.
     */
    method Assign(b: HandBrakeValues, files: seq<string>)
      modifies this
      ensures handBrakeCliPath == b.handBrakeCliPath && defaultPreset == b.defaultPreset && outputFormat == b.outputFormat && qualityValue == b.qualityValue && twoPass == b.twoPass && turboFirstPass == b.turboFirstPass && videoEncoder == b.videoEncoder && audioEncoder == b.audioEncoder && audioBitrate == b.audioBitrate && audioMixdown == b.audioMixdown && includeChapterMarkers == b.includeChapterMarkers && optimizeForWeb == b.optimizeForWeb && iPodCompatible == b.iPodCompatible && additionalArguments == b.additionalArguments && verbosity == b.verbosity && updateCheckEnabled == b.updateCheckEnabled && sendFileDone == b.sendFileDone && customPresetFile == b.customPresetFile
      ensures customPresetFiles == files
    {
      AssignEncoding(b);
      AssignOutput(b, files);
    }

    /** The general, video and audio halves of `Assign`. */
    method AssignEncoding(b: HandBrakeValues)
      modifies this`handBrakeCliPath, this`defaultPreset, this`outputFormat, this`qualityValue, this`twoPass, this`turboFirstPass, this`videoEncoder, this`audioEncoder, this`audioBitrate, this`audioMixdown, this`raised
      ensures handBrakeCliPath == b.handBrakeCliPath && defaultPreset == b.defaultPreset && outputFormat == b.outputFormat && qualityValue == b.qualityValue && twoPass == b.twoPass && turboFirstPass == b.turboFirstPass && videoEncoder == b.videoEncoder && audioEncoder == b.audioEncoder && audioBitrate == b.audioBitrate && audioMixdown == b.audioMixdown
    {
      AssignGeneral(b);
      AssignVideo(b);
      AssignAudio(b);
    }

    /** The container and remaining options of `Assign`, then the file list. */
    method AssignOutput(b: HandBrakeValues, files: seq<string>)
      modifies this`includeChapterMarkers, this`optimizeForWeb, this`iPodCompatible, this`additionalArguments, this`verbosity, this`updateCheckEnabled, this`sendFileDone, this`customPresetFile, this`customPresetFiles, this`raised
      ensures includeChapterMarkers == b.includeChapterMarkers && optimizeForWeb == b.optimizeForWeb && iPodCompatible == b.iPodCompatible && additionalArguments == b.additionalArguments && verbosity == b.verbosity && updateCheckEnabled == b.updateCheckEnabled && sendFileDone == b.sendFileDone && customPresetFile == b.customPresetFile
      ensures customPresetFiles == files
    {
      AssignContainer(b);
      AssignAdvanced(b);
      SetCustomPresetFiles(Some(files));
    }

    /** `Clone`: a new object with every value copied and its own copy of the file list. */
    method Clone() returns (c: HandBrakeSettings)
      ensures fresh(c) && c.Values() == Values() && c.customPresetFiles == customPresetFiles
    {
      c := new HandBrakeSettings();
      c.Assign(Values(), customPresetFiles);
    }
  }
}
