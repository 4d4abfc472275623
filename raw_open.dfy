/**
 * The parameter derivation inside `viewImage`: from an ndarray record
 * (`_rvalue`, `_rshape`, `_rdtype`) and the caller's `options.name` to the
 * staging path and the option string handed to ImageJ's "Raw..." command,
 * or to the channel error, or to no command at all.
 */
module RawOpen {
  import opened Wrappers
  import Decimal

  newtype byte = x: int | 0 <= x < 256

  /** An ndarray record as it travels over RPC. */
  datatype NdArray = NdArray(rtype: string, rvalue: seq<byte>, rshape: seq<int>, rdtype: string)

  /** The directory of the virtual file system under which pixel bytes are staged. */
  const StagingDir := "/str/"
  /** The file name used when the caller gives none. */
  const DefaultName := "tmp"
  /** The image type ImageJ reads as interleaved 8-bit red, green and blue. */
  const Rgb := "[24-bit RGB]"
  /** The message thrown for a 4-D shape with an unsupported channel axis. */
  const ChannelError := "channel dimension (last) can only be 1 or 3"

  /** The dtype tags that have an ImageJ image type. */
  const Dtypes: set<string> := {"uint8", "uint16", "int16", "uint32", "int32"}

  /** The dtype table: the ImageJ "Raw..." image type of each supported dtype tag. */
  function FormatLabel(dtype: string): (r: Option<string>)
    ensures r.Some? <==> dtype in Dtypes
    ensures r != Some(Rgb)
  {
    if dtype == "uint8" then Some("8-bit")
    else if dtype == "uint16" then Some("16-bit Unsigned")
    else if dtype == "int16" then Some("16-bit Signed")
    else if dtype == "uint32" then Some("32-bit Unsigned")
    else if dtype == "int32" then Some("32-bit Signed")
    else None
  }

  /** The dtype an ImageJ image type stands for: the table read right to left. */
  function DtypeOfLabel(imageType: string): Option<string> {
    if imageType == "8-bit" then Some("uint8")
    else if imageType == "16-bit Unsigned" then Some("uint16")
    else if imageType == "16-bit Signed" then Some("int16")
    else if imageType == "32-bit Unsigned" then Some("uint32")
    else if imageType == "32-bit Signed" then Some("int32")
    else None
  }

  /** Every label of the table names the dtype it came from, so no two dtypes share one. */
  lemma FormatLabelRoundTrip(dtype: string)
    requires dtype in Dtypes
    ensures FormatLabel(dtype).Some? && DtypeOfLabel(FormatLabel(dtype).value) == Some(dtype)
  {
  }

  /** `options.name || "tmp"`: an absent or empty name falls back to the default. */
  function EffectiveName(name: Option<string>): (r: string)
    ensures r != ""
    ensures r == DefaultName || Some(r) == name
  {
    match name
    case Some(n) => if n != "" then n else DefaultName
    case None => DefaultName
  }

  /** `viewImage` writes the effective name back into `options`; doing so changes nothing on a second call. */
  lemma EffectiveNameIdempotent(name: Option<string>)
    ensures EffectiveName(Some(EffectiveName(name))) == EffectiveName(name)
    ensures name.Some? && name.value != "" ==> EffectiveName(name) == name.value
  {
  }

  /** The virtual file the pixel bytes are staged in. */
  function StagingPath(name: Option<string>): (p: string)
    ensures |p| > |StagingDir| && p[..|StagingDir|] == StagingDir
    ensures p[|StagingDir|..] == EffectiveName(name)
  {
    StagingDir + EffectiveName(name)
  }

  /** Staging paths, and so staged files, differ exactly when the effective names differ. */
  lemma StagingPathInjective(a: Option<string>, b: Option<string>)
    ensures StagingPath(a) == StagingPath(b) <==> EffectiveName(a) == EffectiveName(b)
  {
  }

  /**
   * The parameters of one `imagej.run("Raw...", ...)` call. An absent image
   * type is JavaScript's `undefined` for a dtype outside the table; an absent
   * number means the option string has no `number=` entry.
   */
  datatype RawCommand = RawCommand(open: string, image: Option<string>, width: int, height: int, number: Option<int>)

  /** What `viewImage` does after staging the bytes. */
  datatype Outcome =
    | Issue(cmd: RawCommand)   // runs "Raw..." with these parameters
    | Reject(message: string)  // throws before any command is run
    | Silent                   // runs nothing and returns `undefined`

  /** The derivation of `viewImage`, branch for branch: 3-D first, then 4-D, then 2-D. */
  function Derive(img: NdArray, name: Option<string>): (o: Outcome)
    ensures o.Silent? <==> |img.rshape| !in {2, 3, 4}
    ensures o.Reject? ==> o.message == ChannelError
    ensures o.Issue? ==> o.cmd.open == StagingPath(name) && (o.cmd.number.None? <==> |img.rshape| == 2)
  {
    var path := StagingPath(name);
    var format := FormatLabel(img.rdtype);
    var shape := img.rshape;
    if |shape| == 3 then
      if shape[2] == 3 then Issue(RawCommand(path, Some(Rgb), shape[1], shape[0], Some(1)))
      else Issue(RawCommand(path, format, shape[1], shape[0], Some(shape[2])))
    else if |shape| == 4 then
      if shape[3] == 3 then Issue(RawCommand(path, Some(Rgb), shape[2], shape[1], Some(shape[0])))
      else if shape[3] != 1 then Reject(ChannelError)
      else Issue(RawCommand(path, format, shape[2], shape[1], Some(shape[0])))
    else if |shape| == 2 then
      Issue(RawCommand(path, format, shape[1], shape[0], None))
    else
      Silent
  }

  /** A 2-D shape is one plane of height shape[0] and width shape[1], with no `number` entry. */
  lemma DerivePlane(img: NdArray, name: Option<string>)
    requires |img.rshape| == 2
    ensures Derive(img, name) == Issue(RawCommand(StagingPath(name), FormatLabel(img.rdtype), img.rshape[1], img.rshape[0], None))
  {
  }

  /** A 3-D shape whose last axis is not 3 is a stack of shape[2] planes of the dtype's type. */
  lemma DeriveStack(img: NdArray, name: Option<string>)
    requires |img.rshape| == 3 && img.rshape[2] != 3
    ensures Derive(img, name) == Issue(RawCommand(StagingPath(name), FormatLabel(img.rdtype), img.rshape[1], img.rshape[0], Some(img.rshape[2])))
  {
  }

  /** A 3-D shape whose last axis is 3 is one RGB plane, whatever the dtype. */
  lemma DeriveRgbPlane(img: NdArray, name: Option<string>)
    requires |img.rshape| == 3 && img.rshape[2] == 3
    ensures Derive(img, name) == Issue(RawCommand(StagingPath(name), Some(Rgb), img.rshape[1], img.rshape[0], Some(1)))
  {
  }

  /**
   * A 4-D shape is shape[0] planes of height shape[1] and width shape[2]; a
   * last axis of 3 makes them RGB, a last axis of 1 keeps the dtype's type.
   */
  lemma DeriveVolume(img: NdArray, name: Option<string>)
    requires |img.rshape| == 4 && img.rshape[3] in {1, 3}
    ensures Derive(img, name).Issue?
    ensures var c := Derive(img, name).cmd;
      c.open == StagingPath(name) &&
      c.width == img.rshape[2] && c.height == img.rshape[1] && c.number == Some(img.rshape[0]) &&
      c.image == (if img.rshape[3] == 3 then Some(Rgb) else FormatLabel(img.rdtype))
  {
  }

  /** A 4-D shape with any other last axis throws the channel error and runs nothing. */
  lemma DeriveBadChannel(img: NdArray, name: Option<string>)
    requires |img.rshape| == 4 && img.rshape[3] !in {1, 3}
    ensures Derive(img, name) == Reject(ChannelError)
  {
  }

  /** Which of the three outcomes each shape gets, in both directions. */
  lemma DeriveOutcomeKinds(img: NdArray, name: Option<string>)
    ensures Derive(img, name).Silent? <==> |img.rshape| !in {2, 3, 4}
    ensures Derive(img, name).Reject? <==> |img.rshape| == 4 && img.rshape[3] !in {1, 3}
    ensures Derive(img, name).Reject? ==> Derive(img, name).message == ChannelError
    ensures Derive(img, name).Issue? ==> Derive(img, name).cmd.open == StagingPath(name)
  {
  }

  /**
   * The RGB type is chosen exactly when the shape has three or four axes and
   * the last one is 3; otherwise the dtype table decides.
   */
  lemma DeriveRgbIffLastAxis3(img: NdArray, name: Option<string>)
    requires Derive(img, name).Issue?
    ensures var s := img.rshape;
      Derive(img, name).cmd.image == (if |s| >= 3 && s[|s| - 1] == 3 then Some(Rgb) else FormatLabel(img.rdtype))
  {
  }

  /** The bytes are staged as they are: their length is never compared with the shape. */
  lemma DeriveIgnoresBytes(a: NdArray, b: NdArray, name: Option<string>)
    requires a.rshape == b.rshape && a.rdtype == b.rdtype
    ensures Derive(a, name) == Derive(b, name)
  {
  }

  /** How a template literal shows the image type; `undefined` for a dtype outside the table. */
  function ImageText(image: Option<string>): string {
    match image
    case Some(t) => t
    case None => "undefined"
  }

  /** One `key=value` entry of an option string, the value written as a template literal writes it. */
  function Entry(key: string, value: int): string {
    key + Decimal.IntToString(value)
  }

  /** The option string of the "Raw..." call, built as the template literals build it. */
  function OptionString(c: RawCommand): (s: string)
    ensures |s| > 5 && s[..5] == "open="
  {
    "open=" + c.open + " image=" + ImageText(c.image)
    + " " + Entry("width=", c.width)
    + " " + Entry("height=", c.height)
    + (match c.number
       case Some(n) => " " + Entry("number=", n)
       case None => "")
  }

  /** The geometry entries of an option string. */
  datatype Dims = Dims(width: int, height: int, number: Option<int>)

  /** Splits at the last space: what comes before it and the final token. */
  function SplitLast(s: string): (r: Option<(string, string)>)
    ensures r.Some? ==> ' ' !in r.value.1
  {
    if |s| == 0 then None
    else if s[|s| - 1] == ' ' then Some((s[..|s| - 1], ""))
    else match SplitLast(s[..|s| - 1])
      case None => None
      case Some((before, token)) => Some((before, token + [s[|s| - 1]]))
  }

  /** The integer of a `key=value` token, if the token has that key. */
  function KeyValue(key: string, token: string): Option<int> {
    if |key| <= |token| && token[..|key|] == key then Decimal.ParseInt(token[|key|..]) else None
  }

  /**
   * Reads width, height and the optional number back from the end of an
   * option string, token by token from the right, so that whatever the path
   * or the image type contain does not matter.
   */
  function ParseDims(s: string): Option<Dims> {
    match SplitLast(s)
    case None => None
    case Some((rest, last)) =>
      match KeyValue("number=", last)
      case Some(n) => ParseWidthHeight(rest, Some(n))
      case None => ParseWidthHeight(s, None)
  }

  /** Reads the trailing `width=` and `height=` tokens. */
  function ParseWidthHeight(s: string, number: Option<int>): Option<Dims> {
    match SplitLast(s)
    case None => None
    case Some((rest, heightToken)) =>
      match (KeyValue("height=", heightToken), SplitLast(rest))
      case (Some(h), Some((_, widthToken))) =>
        (match KeyValue("width=", widthToken)
         case Some(w) => Some(Dims(w, h, number))
         case None => None)
      case _ => None
  }

  /**
   * Reads back the text before the trailing `width=`, `height=` and optional
   * `number=` tokens: the `open=` and `image=` entries.
   */
  function ParseHead(s: string): Option<string> {
    match SplitLast(s)
    case None => None
    case Some((rest, last)) =>
      match KeyValue("number=", last)
      case Some(_) => HeadBeforeWidth(rest)
      case None => HeadBeforeWidth(s)
  }

  /** The text before the trailing `width=` and `height=` tokens. */
  function HeadBeforeWidth(s: string): Option<string> {
    match SplitLast(s)
    case None => None
    case Some((rest, heightToken)) =>
      match SplitLast(rest)
      case None => None
      case Some((head, widthToken)) =>
        if KeyValue("height=", heightToken).Some? && KeyValue("width=", widthToken).Some? then Some(head) else None
  }

  lemma {:induction false} SplitLastAppend(before: string, token: string)
    requires ' ' !in token
    ensures SplitLast(before + " " + token) == Some((before, token))
  {
    var s := before + " " + token;
    if token == [] {
      assert s[..|s| - 1] == before;
    } else {
      var shorter := token[..|token| - 1];
      assert s[..|s| - 1] == before + " " + shorter;
      assert shorter + [token[|token| - 1]] == token;
      SplitLastAppend(before, shorter);
    }
  }

  lemma KeyValueOf(key: string, i: int)
    ensures ' ' !in Entry(key, i) <==> ' ' !in key
    ensures KeyValue(key, Entry(key, i)) == Some(i)
  {
    var token := Entry(key, i);
    assert token[..|key|] == key;
    assert token[|key|..] == Decimal.IntToString(i);
    Decimal.IntRoundTrip(i);
  }

  lemma WidthHeightRoundTrip(head: string, w: int, h: int, number: Option<int>)
    ensures ParseWidthHeight(head + " " + Entry("width=", w) + " " + Entry("height=", h), number)
      == Some(Dims(w, h, number))
  {
    KeyValueOf("width=", w);
    KeyValueOf("height=", h);
    SplitLastAppend(head + " " + Entry("width=", w), Entry("height=", h));
    SplitLastAppend(head, Entry("width=", w));
  }

  lemma HeadBeforeWidthOf(head: string, w: int, h: int)
    ensures HeadBeforeWidth(head + " " + Entry("width=", w) + " " + Entry("height=", h)) == Some(head)
  {
    KeyValueOf("width=", w);
    KeyValueOf("height=", h);
    SplitLastAppend(head + " " + Entry("width=", w), Entry("height=", h));
    SplitLastAppend(head, Entry("width=", w));
  }

  lemma ParseHeadWithNumber(head: string, w: int, h: int, n: int)
    ensures ParseHead(head + " " + Entry("width=", w) + " " + Entry("height=", h) + " " + Entry("number=", n)) == Some(head)
  {
    var upToHeight := head + " " + Entry("width=", w) + " " + Entry("height=", h);
    HeadBeforeWidthOf(head, w, h);
    KeyValueOf("number=", n);
    SplitLastAppend(upToHeight, Entry("number=", n));
  }

  lemma ParseHeadWithoutNumber(head: string, w: int, h: int)
    ensures ParseHead(head + " " + Entry("width=", w) + " " + Entry("height=", h)) == Some(head)
  {
    var heightToken := Entry("height=", h);
    HeadBeforeWidthOf(head, w, h);
    KeyValueOf("height=", h);
    SplitLastAppend(head + " " + Entry("width=", w), heightToken);
    assert KeyValue("number=", heightToken) == None by {
      assert heightToken[0] == 'h';
    }
  }

  /** The `open=` and `image=` entries written into an option string are read back unchanged. */
  lemma HeadRoundTrip(c: RawCommand)
    ensures ParseHead(OptionString(c)) == Some("open=" + c.open + " image=" + ImageText(c.image))
  {
    var head := "open=" + c.open + " image=" + ImageText(c.image);
    var upToHeight := head + " " + Entry("width=", c.width) + " " + Entry("height=", c.height);
    match c.number
    case Some(n) =>
      assert OptionString(c) == upToHeight + " " + Entry("number=", n);
      ParseHeadWithNumber(head, c.width, c.height, n);
    case None =>
      assert OptionString(c) == upToHeight;
      ParseHeadWithoutNumber(head, c.width, c.height);
  }

  /** Width, height and number written into an option string are read back unchanged. */
  lemma DimsRoundTrip(c: RawCommand)
    ensures ParseDims(OptionString(c)) == Some(Dims(c.width, c.height, c.number))
  {
    var head := "open=" + c.open + " image=" + ImageText(c.image);
    var upToHeight := head + " " + Entry("width=", c.width) + " " + Entry("height=", c.height);
    WidthHeightRoundTrip(head, c.width, c.height, c.number);
    match c.number
    case Some(n) =>
      assert OptionString(c) == upToHeight + " " + Entry("number=", n);
      KeyValueOf("number=", n);
      SplitLastAppend(upToHeight, Entry("number=", n));
    case None =>
      var heightToken := Entry("height=", c.height);
      assert OptionString(c) == upToHeight;
      KeyValueOf("height=", c.height);
      SplitLastAppend(head + " " + Entry("width=", c.width), heightToken);
      assert KeyValue("number=", heightToken) == None by {
        assert heightToken[0] == 'h';
      }
  }

  /**
   * What the engine reads from the option string of an issued command is the
   * geometry the shape prescribes: width and height from the two axes before
   * the channel (or last) axis, and the plane count.
   */
  lemma IssuedGeometry(img: NdArray, name: Option<string>)
    requires Derive(img, name).Issue?
    ensures var s := img.rshape;
      ParseDims(OptionString(Derive(img, name).cmd)) == Some(
        if |s| == 2 then Dims(s[1], s[0], None)
        else if |s| == 3 then Dims(s[1], s[0], Some(if s[2] == 3 then 1 else s[2]))
        else Dims(s[2], s[1], Some(s[0])))
  {
    DimsRoundTrip(Derive(img, name).cmd);
  }

  /**
   * The option string of an issued command opens the staging path, with the
   * RGB type exactly for a 3-D or 4-D shape ending in 3 and the dtype's type
   * (or `undefined`) otherwise.
   */
  lemma IssuedHead(img: NdArray, name: Option<string>)
    requires Derive(img, name).Issue?
    ensures var s := img.rshape;
      ParseHead(OptionString(Derive(img, name).cmd)) == Some(
        "open=" + StagingPath(name) + " image="
        + ImageText(if |s| >= 3 && s[|s| - 1] == 3 then Some(Rgb) else FormatLabel(img.rdtype)))
  {
    HeadRoundTrip(Derive(img, name).cmd);
    DeriveRgbIffLastAxis3(img, name);
  }

  /** Worked example: a 100 by 200 RGB plane of bytes under the default name. */
  lemma ExampleRgbPlane()
    ensures Derive(NdArray("ndarray", [], [100, 200, 3], "uint8"), None)
      == Issue(RawCommand("/str/tmp", Some("[24-bit RGB]"), 200, 100, Some(1)))
  {
  }

  /** Worked example: a 50 by 60 plane of unsigned 16-bit pixels has no `number=` entry. */
  lemma ExamplePlane16()
    ensures Derive(NdArray("ndarray", [], [50, 60], "uint16"), None)
      == Issue(RawCommand("/str/tmp", Some("16-bit Unsigned"), 60, 50, None))
  {
  }

  /** Worked example: five channels in a 4-D shape are refused. */
  lemma ExampleBadChannel()
    ensures Derive(NdArray("ndarray", [], [2, 50, 60, 5], "uint8"), None) == Reject(ChannelError)
  {
  }

  /** Worked example: a dtype outside the table is written as `undefined`. */
  lemma ExampleUnknownDtype()
    ensures Derive(NdArray("ndarray", [], [8, 8], "float32"), Some("cells"))
      == Issue(RawCommand("/str/cells", None, 8, 8, None))
    ensures ParseHead(OptionString(RawCommand("/str/cells", None, 8, 8, None)))
      == Some("open=" + "/str/cells" + " image=" + "undefined")
  {
    HeadRoundTrip(RawCommand("/str/cells", None, 8, 8, None));
  }
}
