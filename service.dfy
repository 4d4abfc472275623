/**
 * The service object exported over RPC: the operations that drive the image
 * engine while showing the page's loader, and `viewImage`, which stages the
 * pixel bytes and runs the "Raw..." command derived in `RawOpen`.
 *
 * The engine is a sink: every write to the loader and every call the service
 * makes into the engine is appended, in order, to one trace of events, and
 * what each awaited call settles to (a value or a thrown error) is a parameter
 * of the operation.
 */
module Service {
  import opened Wrappers
  import opened RawOpen

  /** `loader.style.display`: "block" shows the loader, "none" hides it. */
  datatype Display = Shown | Hidden

  /** The value written to `loader.style.display`. */
  function Css(d: Display): (s: string)
    ensures s == "block" <==> d == Shown
    ensures d == Hidden ==> s == "none"
  {
    match d
    case Shown => "block"
    case Hidden => "none"
  }

  /** A call from the service into the image engine. */
  datatype EngineCall =
    | OpenImage(path: string)
    | SaveImage(filename: string, format: string, ext: string)
    | AddStringFile(path: string, bytes: seq<byte>)
    | Run(command: string, options: string)
    | GetImageData

  /** One step the service takes: a write to the loader's display, or a call into the engine. */
  datatype Event = Loader(display: Display) | Call(call: EngineCall)

  /** What the engine hands back for the active image: its bytes, shape and type tag. */
  datatype ImageData = ImageData(bytes: seq<byte>, shape: seq<int>, dtype: string)

  /** An image window the engine opened. */
  datatype Handle = Handle(id: nat)

  /** The record `getImage` returns for the engine's image data. */
  function NdArrayOf(data: ImageData): (a: NdArray)
    ensures a.rtype == "ndarray"
    ensures a.rvalue == data.bytes && a.rshape == data.shape && a.rdtype == data.dtype
  {
    NdArray("ndarray", data.bytes, data.shape, data.dtype)
  }

  /** The image data an ndarray record carries. */
  function ImageDataOf(a: NdArray): ImageData {
    ImageData(a.rvalue, a.rshape, a.rdtype)
  }

  /** `getImage`'s record loses nothing, and every "ndarray" record is one it could return. */
  lemma NdArrayRoundTrip(data: ImageData, a: NdArray)
    ensures ImageDataOf(NdArrayOf(data)) == data
    ensures a.rtype == "ndarray" ==> NdArrayOf(ImageDataOf(a)) == a
  {
  }

  /** The loader writes of a trace, in order. */
  function LoaderWrites(events: seq<Event>): (w: seq<Display>)
    ensures |w| <= |events|
  {
    if events == [] then []
    else (match events[0] case Loader(d) => [d] case Call(_) => []) + LoaderWrites(events[1..])
  }

  lemma {:induction false} LoaderWritesAppend(a: seq<Event>, b: seq<Event>)
    ensures LoaderWrites(a + b) == LoaderWrites(a) + LoaderWrites(b)
  {
    if a == [] {
      assert a + b == b;
    } else {
      assert (a + b)[1..] == a[1..] + b;
      LoaderWritesAppend(a[1..], b);
    }
  }

  /** Engine calls write nothing to the loader. */
  lemma {:induction false} CallsWriteNothing(calls: seq<Event>)
    requires forall i :: 0 <= i < |calls| ==> calls[i].Call?
    ensures LoaderWrites(calls) == []
  {
    if calls != [] {
      CallsWriteNothing(calls[1..]);
    }
  }

  /**
   * The loader writes of a run of operations: each operation writes "block"
   * on entry and "none" on its way out, so writes come in that order, in pairs.
   */
  ghost predicate Paired(log: seq<Display>) {
    |log| % 2 == 0 &&
    forall i :: 0 <= i < |log| ==> log[i] == (if i % 2 == 0 then Shown else Hidden)
  }

  /**
   * An operation that shows the loader, makes its engine calls and hides the
   * loader adds one "block", "none" pair to the loader writes, whatever the calls.
   */
  lemma OperationKeepsPaired(before: seq<Event>, calls: seq<Event>)
    requires Paired(LoaderWrites(before))
    requires forall i :: 0 <= i < |calls| ==> calls[i].Call?
    ensures var after := before + [Loader(Shown)] + calls + [Loader(Hidden)];
      LoaderWrites(after) == LoaderWrites(before) + [Shown, Hidden] && Paired(LoaderWrites(after))
  {
    CallsWriteNothing(calls);
    LoaderWritesAppend(before + [Loader(Shown)] + calls, [Loader(Hidden)]);
    LoaderWritesAppend(before + [Loader(Shown)], calls);
    LoaderWritesAppend(before, [Loader(Shown)]);
    assert LoaderWrites([Loader(Shown)]) == [Shown];
    assert LoaderWrites([Loader(Hidden)]) == [Hidden];
  }

  /** After any number of operations the last write has hidden the loader. */
  lemma PairedEndsHidden(log: seq<Display>)
    requires Paired(log) && log != []
    ensures log[|log| - 1] == Hidden
  {
  }

  /** The "Raw..." engine call `viewImage` makes for an outcome of `Derive`: one for a command, none otherwise. */
  function RawCalls(o: Outcome): (calls: seq<Event>)
    ensures |calls| <= 1 && (calls != [] <==> o.Issue?)
    ensures forall i :: 0 <= i < |calls| ==> calls[i] == Call(Run("Raw...", OptionString(o.cmd)))
  {
    match o
    case Issue(cmd) => [Call(Run("Raw...", OptionString(cmd)))]
    case _ => []
  }

  /**
   * What `viewImage` settles to for an outcome of `Derive`: what the "Raw..."
   * call settles to, the thrown channel error, or `undefined`.
   */
  function Settled(o: Outcome, reply: Reply<Handle>): (r: Reply<Option<Handle>>)
    ensures o.Reject? ==> r == Threw(o.message)
    ensures o.Silent? ==> r == Returned(None)
    ensures o.Issue? && reply.Threw? ==> r == Threw(reply.error)
    ensures o.Issue? && reply.Returned? ==> r == Returned(Some(reply.value))
  {
    match o
    case Issue(_) => (match reply case Returned(h) => Returned(Some(h)) case Threw(e) => Threw(e))
    case Reject(message) => Threw(message)
    case Silent => Returned(None)
  }

  /** The caller's `options` object; `viewImage` writes the effective name into it. */
  class ViewOptions {
    var name: Option<string>

    constructor (name: Option<string>)
      ensures this.name == name
    {
      this.name := name;
    }
  }

  class ImageJService {
    /** The loader element's display. */
    var loader: Display
    /** Every loader write and engine call, in order. */
    var events: seq<Event>
    /** The virtual file system the pixel bytes are staged in, by path. */
    var files: map<string, seq<byte>>

    ghost predicate Valid()
      reads this
    {
      var writes := LoaderWrites(events);
      Paired(writes) && (writes != [] ==> loader == writes[|writes| - 1])
    }

    /** The service starts with the loader as the page left it, nothing staged and no event. */
    constructor (initial: Display)
      ensures Valid()
      ensures loader == initial && events == [] && files == map[]
    {
      loader := initial;
      events := [];
      files := map[];
    }

    method SetLoader(d: Display)
      modifies this
      ensures loader == d && events == old(events) + [Loader(d)] && files == old(files)
    {
      loader := d;
      events := events + [Loader(d)];
    }

    /** `open(path)`: opens a file in the engine while the loader shows; the engine's error is rethrown. */
    method Open(path: string, reply: Reply<()>) returns (r: Reply<()>)
      requires Valid()
      modifies this
      ensures Valid() && loader == Hidden && Css(loader) == "none"
      ensures events == old(events) + [Loader(Shown), Call(OpenImage(path)), Loader(Hidden)]
      ensures files == old(files)
      ensures r == reply
    {
      SetLoader(Shown);
      events := events + [Call(OpenImage(path))];
      r := reply;
      SetLoader(Hidden);
      OperationKeepsPaired(old(events), [Call(OpenImage(path))]);
    }

    /** `save(filename, format, ext)`: saves the active image while the loader shows; the engine's error is rethrown. */
    method Save(filename: string, format: string, ext: string, reply: Reply<()>) returns (r: Reply<()>)
      requires Valid()
      modifies this
      ensures Valid() && loader == Hidden && Css(loader) == "none"
      ensures events == old(events) + [Loader(Shown), Call(SaveImage(filename, format, ext)), Loader(Hidden)]
      ensures files == old(files)
      ensures r == reply
    {
      SetLoader(Shown);
      events := events + [Call(SaveImage(filename, format, ext))];
      r := reply;
      SetLoader(Hidden);
      OperationKeepsPaired(old(events), [Call(SaveImage(filename, format, ext))]);
    }

    /** Runs "Raw..." with the option string of `cmd` and passes on what the engine settles to. */
    method RunRaw(cmd: RawCommand, reply: Reply<Handle>) returns (r: Reply<Option<Handle>>)
      modifies this
      ensures events == old(events) + [Call(Run("Raw...", OptionString(cmd)))]
      ensures loader == old(loader) && files == old(files)
      ensures r == Settled(Issue(cmd), reply)
    {
      events := events + [Call(Run("Raw...", OptionString(cmd)))];
      match reply
      case Returned(h) => r := Returned(Some(h));
      case Threw(e) => r := Threw(e);
    }

    /**
     * `viewImage(img, options)`: while the loader shows, stages the bytes
     * under "/str/" and the effective name, writes that name back into
     * `options`, and runs "Raw..." with the parameters `Derive` gives; throws
     * the channel error, or returns `undefined` without running anything,
     * where `Derive` says so.
     */
    method ViewImage(img: NdArray, options: ViewOptions?, reply: Reply<Handle>) returns (r: Reply<Option<Handle>>)
      requires Valid()
      modifies this, options
      ensures Valid() && loader == Hidden && Css(loader) == "none"
      ensures options != null ==> options.name == Some(EffectiveName(old(options.name)))
      ensures var name := if options == null then None else old(options.name);
        files == old(files)[StagingPath(name) := img.rvalue] &&
        events == old(events) + [Loader(Shown), Call(AddStringFile(StagingPath(name), img.rvalue))]
          + RawCalls(Derive(img, name)) + [Loader(Hidden)] &&
        r == Settled(Derive(img, name), reply)
    {
      SetLoader(Shown);
      var name := if options == null then None else options.name;
      var effective := EffectiveName(name);
      if options != null {
        options.name := Some(effective);
      }
      var filepath := StagingDir + effective;
      files := files[filepath := img.rvalue];
      events := events + [Call(AddStringFile(filepath, img.rvalue))];
      r := RunDerived(img, name, filepath, reply);
      SetLoader(Hidden);
      var calls := [Call(AddStringFile(filepath, img.rvalue))] + RawCalls(Derive(img, name));
      assert events == old(events) + [Loader(Shown)] + calls + [Loader(Hidden)];
      OperationKeepsPaired(old(events), calls);
    }

    /** The shape branching of `viewImage` once the bytes are staged at `filepath`. */
    method RunDerived(img: NdArray, ghost name: Option<string>, filepath: string, reply: Reply<Handle>)
      returns (r: Reply<Option<Handle>>)
      requires filepath == StagingPath(name)
      modifies this
      ensures loader == old(loader) && files == old(files)
      ensures events == old(events) + RawCalls(Derive(img, name))
      ensures r == Settled(Derive(img, name), reply)
    {
      var format := FormatLabel(img.rdtype);
      var shape := img.rshape;
      if |shape| == 3 {
        var number := shape[2];
        if shape[2] == 3 {
          format := Some(Rgb);
          number := 1;
        }
        r := RunRaw(RawCommand(filepath, format, shape[1], shape[0], Some(number)), reply);
      } else if |shape| == 4 {
        var badChannel := false;
        if shape[3] == 3 {
          format := Some(Rgb);
        } else if shape[3] != 1 {
          badChannel := true;
        }
        if badChannel {
          r := Threw(ChannelError);
        } else {
          r := RunRaw(RawCommand(filepath, format, shape[2], shape[1], Some(shape[0])), reply);
        }
      } else if |shape| == 2 {
        r := RunRaw(RawCommand(filepath, format, shape[1], shape[0], None), reply);
      } else {
        r := Returned(None);
      }
    }

    /** `getImage()`: the active image as an "ndarray" record, fetched while the loader shows; the engine's error is rethrown. */
    method GetImage(data: Reply<ImageData>) returns (r: Reply<NdArray>)
      requires Valid()
      modifies this
      ensures Valid() && loader == Hidden && Css(loader) == "none"
      ensures events == old(events) + [Loader(Shown), Call(GetImageData), Loader(Hidden)]
      ensures files == old(files)
      ensures r == match data
        case Returned(d) => Returned(NdArrayOf(d))
        case Threw(e) => Threw(e)
    {
      SetLoader(Shown);
      events := events + [Call(GetImageData)];
      match data {
        case Returned(d) =>
          r := Returned(NdArrayOf(d));
        case Threw(e) =>
          r := Threw(e);
      }
      SetLoader(Hidden);
      OperationKeepsPaired(old(events), [Call(GetImageData)]);
    }
  }
}
