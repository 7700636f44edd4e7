/**
 * The settings of an export and the command line handed to the external
 * ffmpeg encoder.
 */
module Encoder {
  import opened Optional
  import opened FrameNames

  datatype CodecType = ANIMATION | FLV | H263 | H264 | MPEG4 | RAW | THEORA | WMV

  datatype CompressionQuality = LOW | MEDIUM | HIGH | BEST

  /** codecTypeMap: ffmpeg's name for each codec. THEORA has no entry, so its lookup gives null. */
  function CodecName(codec: CodecType): (name: Option<string>)
  {
    match codec
    case ANIMATION => Some("qtrle")
    case FLV => Some("flv")
    case H263 => Some("h263")
    case H264 => Some("libx264")
    case MPEG4 => Some("mpeg4")
    case RAW => Some("rawvideo")
    case THEORA => None
    case WMV => Some("wmv")
  }

  /** compressionQualityMap: the x264 preset name for each quality. */
  function QualityPreset(quality: CompressionQuality): string
  {
    match quality
    case LOW => "baseline"
    case MEDIUM => "default"
    case HIGH => "hq"
    case BEST => "lossless_max"
  }

  /** FFMPEG_PRESET_TEMPLATE formatted with a preset name. */
  function PresetPath(preset: string): string {
    "res/ffpresets/libx264-" + preset + ".ffpreset"
  }

  /** bitRateForSize: a placeholder policy, in kilobits per second, that ignores the frame size. */
  function BitRateForSize(width: int, height: int): nat {
    1000
  }

  /** The codec table is partial exactly at THEORA and gives distinct codecs distinct names. */
  lemma CodecTable(c1: CodecType, c2: CodecType)
    ensures CodecName(c1).None? <==> c1 == THEORA
    ensures CodecName(c1).Some? && CodecName(c1) == CodecName(c2) ==> c1 == c2
  {
  }

  /** The quality table is total and gives distinct qualities distinct presets, hence distinct preset files. */
  lemma QualityTable(q1: CompressionQuality, q2: CompressionQuality)
    ensures PresetPath(QualityPreset(q1)) == PresetPath(QualityPreset(q2)) <==> q1 == q2
  {
    var p1, p2 := QualityPreset(q1), QualityPreset(q2);
    if PresetPath(p1) == PresetPath(p2) {
      var k := |"res/ffpresets/libx264-"|;
      assert |p1| == |p2|;
      assert p1 == PresetPath(p1)[k..k + |p1|];
      assert p2 == PresetPath(p2)[k..k + |p2|];
    }
  }

  /** True when no element of a Java argument list is null. */
  predicate NullFree(argv: seq<Option<string>>) {
    forall k :: 0 <= k < |argv| ==> argv[k].Some?
  }

  /**
   * The argument list `save` hands to ProcessBuilder; a null element is
   * None. Built as the source builds it: fixed prefix, a preset file for
   * H264 or a bit rate otherwise, then the output file.
   */
  function CommandList(binary: string, codec: CodecType, quality: CompressionQuality,
                       template: string, movieFilename: string, width: int, height: int): seq<Option<string>>
  {
    [Some(binary), Some("-y"), Some("-i"), Some(template), Some("-vcodec"), CodecName(codec)]
    + RateArguments(codec, quality, width, height)
    + [Some(movieFilename)]
  }

  /** The rate-control pair of the command: a preset file for H264, a bit rate for every other codec. */
  function RateArguments(codec: CodecType, quality: CompressionQuality, width: int, height: int): seq<Option<string>>
  {
    if codec == H264 then [Some("-fpre"), Some(PresetPath(QualityPreset(quality)))]
    else [Some("-b"), Some(Decimal(BitRateForSize(width, height)) + "k")]
  }

  lemma DecimalThousand()
    ensures Decimal(1000) == "1000"
  {
    assert Decimal(1) == "1";
    assert Decimal(10) == Decimal(1) + "0";
    assert Decimal(100) == Decimal(10) + "0";
  }

  /**
   * The shape of the command: nine arguments, in order the binary, `-y`,
   * `-i`, the frame template, `-vcodec`, the codec's name, then
   * `-fpre res/ffpresets/libx264-<preset>.ffpreset` for H264 or
   * `-b 1000k` for every other codec, and last the movie file.
   */
  lemma CommandListShape(binary: string, codec: CodecType, quality: CompressionQuality,
                         template: string, movieFilename: string, width: int, height: int)
    ensures var argv := CommandList(binary, codec, quality, template, movieFilename, width, height);
      && |argv| == 9
      && argv[..5] == [Some(binary), Some("-y"), Some("-i"), Some(template), Some("-vcodec")]
      && argv[5] == CodecName(codec)
      && (codec == H264 ==> argv[6..8] == [Some("-fpre"), Some("res/ffpresets/libx264-" + QualityPreset(quality) + ".ffpreset")])
      && (codec != H264 ==> argv[6..8] == [Some("-b"), Some("1000k")])
      && argv[8] == Some(movieFilename)
  {
    DecimalThousand();
    assert Decimal(BitRateForSize(width, height)) + "k" == "1000k";
  }

  /** ProcessBuilder receives a null argument exactly when the codec has no ffmpeg name, that is for THEORA. */
  lemma CommandListNullFree(binary: string, codec: CodecType, quality: CompressionQuality,
                            template: string, movieFilename: string, width: int, height: int)
    ensures NullFree(CommandList(binary, codec, quality, template, movieFilename, width, height)) <==> codec != THEORA
  {
    var head := [Some(binary), Some("-y"), Some("-i"), Some(template), Some("-vcodec"), CodecName(codec)];
    var rate := RateArguments(codec, quality, width, height);
    NullFreeConcat(head, rate);
    NullFreeConcat(head + rate, [Some(movieFilename)]);
    HeadNullFree(binary, template, CodecName(codec));
    RateArgumentsNullFree(codec, quality, width, height);
    CodecTable(codec, codec);
  }

  /** A fixed prefix of present arguments ending in a looked-up one is null-free exactly when the lookup succeeded. */
  lemma HeadNullFree(binary: string, template: string, last: Option<string>)
    ensures NullFree([Some(binary), Some("-y"), Some("-i"), Some(template), Some("-vcodec"), last]) <==> last.Some?
  {
    var head := [Some(binary), Some("-y"), Some("-i"), Some(template), Some("-vcodec"), last];
    assert head[5] == last;
  }

  lemma RateArgumentsNullFree(codec: CodecType, quality: CompressionQuality, width: int, height: int)
    ensures NullFree(RateArguments(codec, quality, width, height))
  {
  }

  /** A concatenation is null-free exactly when both parts are. */
  lemma NullFreeConcat(a: seq<Option<string>>, b: seq<Option<string>>)
    ensures NullFree(a + b) <==> NullFree(a) && NullFree(b)
  {
    if NullFree(a + b) {
      forall k | 0 <= k < |a|
        ensures a[k].Some?
      {
        assert a[k] == (a + b)[k];
      }
      forall k | 0 <= k < |b|
        ensures b[k].Some?
      {
        assert b[k] == (a + b)[|a| + k];
      }
    }
  }

  /** The quality setting only reaches the command for H264. */
  lemma QualityOnlyForH264(binary: string, codec: CodecType, q1: CompressionQuality, q2: CompressionQuality,
                           template: string, movieFilename: string, width: int, height: int)
    ensures CommandList(binary, codec, q1, template, movieFilename, width, height)
         == CommandList(binary, codec, q2, template, movieFilename, width, height)
        <==> codec != H264 || q1 == q2
  {
    if codec == H264 && q1 != q2 {
      var a1 := CommandList(binary, codec, q1, template, movieFilename, width, height);
      var a2 := CommandList(binary, codec, q2, template, movieFilename, width, height);
      assert a1[7] == Some(PresetPath(QualityPreset(q1)));
      assert a2[7] == Some(PresetPath(QualityPreset(q2)));
      QualityTable(q1, q2);
    }
  }

  /** The bit-rate placeholder makes the command independent of the frame size. */
  lemma CommandListIgnoresSize(binary: string, codec: CodecType, quality: CompressionQuality,
                               template: string, movieFilename: string, w1: int, h1: int, w2: int, h2: int)
    ensures CommandList(binary, codec, quality, template, movieFilename, w1, h1)
         == CommandList(binary, codec, quality, template, movieFilename, w2, h2)
  {
  }

  /** The fixed command of the version that ignores codec and quality. */
  function FixedCommandList(binary: string, template: string, movieFilename: string): seq<string> {
    [binary, "-i", template, "-b", "1000k", "-y", movieFilename]
  }
}
