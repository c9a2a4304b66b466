/**
 * `FFmpegSettings`: ten settings, each behind a setter that stores the value and raises
 * `PropertyChanged` only when the value differs, and `Clone`. The raised notifications are
 * recorded as the list of property names, in order.
 */
module FFmpegOptions {
  /** The properties, named as the `PropertyChanged` events name them. */
  datatype Property =
    | FFmpegPath | FFprobePath | ThreadCount | VideoCodec | AudioCodec | AdditionalArguments | HardwareAcceleration | HardwareAccelerationMethod | LogLevel | OverwriteOutput

  /** The values of the properties, in declaration order. */
  datatype FFmpegValues = FFmpegValues(
    ffmpegPath: string,
    ffprobePath: string,
    threadCount: int,
    videoCodec: string,
    audioCodec: string,
    additionalArguments: string,
    hardwareAcceleration: bool,
    hardwareAccelerationMethod: string,
    logLevel: int,
    overwriteOutput: bool)

  /** The field initialisers. */
  const Defaults := FFmpegValues("ffmpeg", "ffprobe", 0, "libx264", "aac", "", false, "auto", 2, true)

  /** The notification log after one setter call: the property's name is added if the value differed. */
  function Raise(log: seq<Property>, name: Property, differs: bool): seq<Property>
  {
    if differs then log + [name] else log
  }

  /** `FFmpegSettings`: one backing field per property. */
  class FFmpegSettings {
    var ffmpegPath: string
    var ffprobePath: string
    var threadCount: int
    var videoCodec: string
    var audioCodec: string
    var additionalArguments: string
    var hardwareAcceleration: bool
    var hardwareAccelerationMethod: string
    var logLevel: int
    var overwriteOutput: bool
    /** The properties named by the `PropertyChanged` events raised so far. */
    var raised: seq<Property>

    /** The properties' current values. */
    function Values(): FFmpegValues
      reads this
    {
      FFmpegValues(ffmpegPath, ffprobePath, threadCount, videoCodec, audioCodec, additionalArguments, hardwareAcceleration, hardwareAccelerationMethod, logLevel, overwriteOutput)
    }

    /** A new object: the field initialisers, nothing raised. */
    constructor()
      ensures Values() == Defaults && raised == []
    {
      ffmpegPath := Defaults.ffmpegPath;
      ffprobePath := Defaults.ffprobePath;
      threadCount := Defaults.threadCount;
      videoCodec := Defaults.videoCodec;
      audioCodec := Defaults.audioCodec;
      additionalArguments := Defaults.additionalArguments;
      hardwareAcceleration := Defaults.hardwareAcceleration;
      hardwareAccelerationMethod := Defaults.hardwareAccelerationMethod;
      logLevel := Defaults.logLevel;
      overwriteOutput := Defaults.overwriteOutput;
      raised := [];
    }

    method SetFFmpegPath(value: string)
      modifies this`ffmpegPath, this`raised
      ensures ffmpegPath == value
      ensures raised == Raise(old(raised), FFmpegPath, old(ffmpegPath) != value)
    {
      if ffmpegPath != value {
        ffmpegPath := value;
        raised := raised + [FFmpegPath];
      }
    }

    method SetFFprobePath(value: string)
      modifies this`ffprobePath, this`raised
      ensures ffprobePath == value
      ensures raised == Raise(old(raised), FFprobePath, old(ffprobePath) != value)
    {
      if ffprobePath != value {
        ffprobePath := value;
        raised := raised + [FFprobePath];
      }
    }

    method SetThreadCount(value: int)
      modifies this`threadCount, this`raised
      ensures threadCount == value
      ensures raised == Raise(old(raised), ThreadCount, old(threadCount) != value)
    {
      if threadCount != value {
        threadCount := value;
        raised := raised + [ThreadCount];
      }
    }

    method SetVideoCodec(value: string)
      modifies this`videoCodec, this`raised
      ensures videoCodec == value
      ensures raised == Raise(old(raised), VideoCodec, old(videoCodec) != value)
    {
      if videoCodec != value {
        videoCodec := value;
        raised := raised + [VideoCodec];
      }
    }

    method SetAudioCodec(value: string)
      modifies this`audioCodec, this`raised
      ensures audioCodec == value
      ensures raised == Raise(old(raised), AudioCodec, old(audioCodec) != value)
    {
      if audioCodec != value {
        audioCodec := value;
        raised := raised + [AudioCodec];
      }
    }

    method SetAdditionalArguments(value: string)
      modifies this`additionalArguments, this`raised
      ensures additionalArguments == value
      ensures raised == Raise(old(raised), AdditionalArguments, old(additionalArguments) != value)
    {
      if additionalArguments != value {
        additionalArguments := value;
        raised := raised + [AdditionalArguments];
      }
    }

    method SetHardwareAcceleration(value: bool)
      modifies this`hardwareAcceleration, this`raised
      ensures hardwareAcceleration == value
      ensures raised == Raise(old(raised), HardwareAcceleration, old(hardwareAcceleration) != value)
    {
      if hardwareAcceleration != value {
        hardwareAcceleration := value;
        raised := raised + [HardwareAcceleration];
      }
    }

    method SetHardwareAccelerationMethod(value: string)
      modifies this`hardwareAccelerationMethod, this`raised
      ensures hardwareAccelerationMethod == value
      ensures raised == Raise(old(raised), HardwareAccelerationMethod, old(hardwareAccelerationMethod) != value)
    {
      if hardwareAccelerationMethod != value {
        hardwareAccelerationMethod := value;
        raised := raised + [HardwareAccelerationMethod];
      }
    }

    method SetLogLevel(value: int)
      modifies this`logLevel, this`raised
      ensures logLevel == value
      ensures raised == Raise(old(raised), LogLevel, old(logLevel) != value)
    {
      if logLevel != value {
        logLevel := value;
        raised := raised + [LogLevel];
      }
    }

    method SetOverwriteOutput(value: bool)
      modifies this`overwriteOutput, this`raised
      ensures overwriteOutput == value
      ensures raised == Raise(old(raised), OverwriteOutput, old(overwriteOutput) != value)
    {
      if overwriteOutput != value {
        overwriteOutput := value;
        raised := raised + [OverwriteOutput];
      }
    }

    /** Writes the tool paths and thread count of `b` through their setters. */
    method AssignTools(b: FFmpegValues)
      modifies this`ffmpegPath, this`ffprobePath, this`threadCount, this`raised
      ensures ffmpegPath == b.ffmpegPath && ffprobePath == b.ffprobePath && threadCount == b.threadCount
    {
      SetFFmpegPath(b.ffmpegPath);
      SetFFprobePath(b.ffprobePath);
      SetThreadCount(b.threadCount);
    }

    /** Writes the codecs and extra arguments of `b` through their setters. */
    method AssignCodecs(b: FFmpegValues)
      modifies this`videoCodec, this`audioCodec, this`additionalArguments, this`raised
      ensures videoCodec == b.videoCodec && audioCodec == b.audioCodec && additionalArguments == b.additionalArguments
    {
      SetVideoCodec(b.videoCodec);
      SetAudioCodec(b.audioCodec);
      SetAdditionalArguments(b.additionalArguments);
    }

    /** Writes the acceleration, logging and overwrite options of `b` through their setters. */
    method AssignBehaviour(b: FFmpegValues)
      modifies this`hardwareAcceleration, this`hardwareAccelerationMethod, this`logLevel, this`overwriteOutput, this`raised
      ensures hardwareAcceleration == b.hardwareAcceleration && hardwareAccelerationMethod == b.hardwareAccelerationMethod && logLevel == b.logLevel && overwriteOutput == b.overwriteOutput
    {
      SetHardwareAcceleration(b.hardwareAcceleration);
      SetHardwareAccelerationMethod(b.hardwareAccelerationMethod);
      SetLogLevel(b.logLevel);
      SetOverwriteOutput(b.overwriteOutput);
    }

    /** `Clone`: a new object whose every property was written from this one's. */
    method Clone() returns (c: FFmpegSettings)
      ensures fresh(c) && c.Values() == Values()
    {
      c := new FFmpegSettings();
      c.AssignTools(Values());
      c.AssignCodecs(Values());
      c.AssignBehaviour(Values());
    }
  }

  /** Editing a clone leaves the original as it was: the two objects share no state. */
  method EditClone(s: FFmpegSettings, path: string) returns (c: FFmpegSettings)
    ensures fresh(c) && c.ffmpegPath == path
    ensures c.Values() == s.Values().(ffmpegPath := path)
  {
    c := s.Clone();
    c.SetFFmpegPath(path);
  }
}
