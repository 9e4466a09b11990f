/**
 * What the adapters see of HTTP: the request they issue, the reply a server
 * gives (as an input of the model), the parts of a decoded JSON body the
 * adapters read, and the server-sent-event framing both streaming adapters
 * decode the same way.
 */
module Transport {
  import opened Wrappers
  import opened Text
  import opened Contract

  // ---------------------------------------------------------------------------
  // Decoded JSON bodies: only the paths the adapters read. A JSON value other
  // than `null` whose paths are missing is a `Body` with those fields absent.

  datatype Part = Part(text: Option<string>)
  datatype Content = Content(parts: Option<seq<Part>>)
  datatype Candidate = Candidate(content: Option<Content>)
  datatype ChoiceMessage = ChoiceMessage(content: Option<string>)
  datatype Choice = Choice(message: Option<ChoiceMessage>, delta: Option<ChoiceMessage>)

  datatype Body = Body(
    candidates: Option<seq<Candidate>>,
    usageMetadata: Option<Usage>,
    choices: Option<seq<Choice>>,
    usage: Option<Usage>)

  /** An issued HTTP request: URL, headers and JSON body. */
  datatype Exchange<B> = Exchange(url: string, headers: map<string, string>, body: B)

  const JsonHeaders: map<string, string> := map["Content-Type" := "application/json"]

  /**
   * How a non-streaming request ends: `fetch` or reading the body raises;
   * the status is not ok (with the `error.message` of the error body when it
   * decodes and has one); or the body decodes (to `None` for JSON `null`).
   * An error body that decodes to `null` makes reading `error.message` raise,
   * which is the `Failed` case with that `TypeError`.
   */
  datatype Reply =
    | Failed(error: Thrown)
    | NotOk(errorMessage: Option<string>)
    | Delivered(json: Option<Body>)

  /**
   * How a streaming request ends: `fetch` raises; the status is not ok; the
   * response has no body; or the body yields decoded chunks until it ends,
   * or until a read raises `interruption`.
   */
  datatype StreamReply =
    | StreamFailed(error: Thrown)
    | StreamNotOk(errorMessage: Option<string>)
    | NoBody
    | Streamed(chunks: seq<string>, interruption: Option<Thrown>)

  /** How a connectivity probe ends: `fetch` raises, or the server answers with an ok or non-ok status. */
  datatype ProbeReply = ProbeFailed(error: Thrown) | ProbeAnswered(ok: bool)

  /** The observable effect of a completion call: the request issued, if any, and the result or raised error. */
  datatype Call<R> = Call(sent: Option<R>, result: Result<Response, Thrown>)

  /** The same for a streaming call, with the arguments handed to `onData`, in order. */
  datatype StreamCall<R> = StreamCall(sent: Option<R>, delivered: seq<string>, result: Result<Response, Thrown>)

  // ---------------------------------------------------------------------------
  // Server-sent-event framing

  const DataPrefix := "data: "

  /** `lines.filter(line => line.startsWith('data: '))` */
  function KeepData(lines: seq<string>): (r: seq<string>)
    ensures |r| <= |lines|
    ensures forall i :: 0 <= i < |r| ==> StartsWith(r[i], DataPrefix)
  {
    if lines == [] then []
    else if StartsWith(lines[0], DataPrefix) then [lines[0]] + KeepData(lines[1..])
    else KeepData(lines[1..])
  }

  /** The filter keeps exactly the data lines: nothing else gets through and none is dropped. */
  lemma {:induction false} KeepDataExactly(lines: seq<string>)
    ensures forall l :: l in KeepData(lines) <==> l in lines && StartsWith(l, DataPrefix)
  {
    if lines != [] {
      KeepDataExactly(lines[1..]);
      assert lines == [lines[0]] + lines[1..];
    }
  }

  /** The data lines of one decoded chunk, split on its own (no reassembly across chunks). */
  function DataLines(chunk: string): (r: seq<string>)
    ensures forall i :: 0 <= i < |r| ==> StartsWith(r[i], DataPrefix)
  {
    KeepData(SplitLines(chunk))
  }

  /** The text of a data line after the six-character `data: ` marker: `line.substring(6)`. */
  function Payload(line: string): string
    requires StartsWith(line, DataPrefix)
  {
    line[|DataPrefix|..]
  }

  /** The texts one line hands out: none or one. */
  function Handed(o: Option<string>): seq<string> {
    match o
    case Some(t) => [t]
    case None => []
  }

  /** The texts handed out, in order, when `emit` is asked about each line in turn. */
  function Harvest(lines: seq<string>, emit: string -> Option<string>): seq<string> {
    if lines == [] then []
    else Harvest(lines[..|lines| - 1], emit) + Handed(emit(lines[|lines| - 1]))
  }

  /** One more line of a chunk extends the harvest by that line's text, if any. */
  lemma HarvestStep(lines: seq<string>, j: nat, emit: string -> Option<string>)
    requires j < |lines|
    ensures Harvest(lines[..j + 1], emit) == Harvest(lines[..j], emit) + Handed(emit(lines[j]))
  {
    assert lines[..j + 1][..j] == lines[..j];
  }

  /** Texts handed on after the first `j` lines, extended by line `j`'s text, are those handed on after `j + 1` lines. */
  lemma HarvestExtend(lines: seq<string>, j: nat, emit: string -> Option<string>, delivered0: seq<string>, delivered: seq<string>)
    requires j < |lines| && delivered == delivered0 + Harvest(lines[..j], emit)
    ensures delivered + Handed(emit(lines[j])) == delivered0 + Harvest(lines[..j + 1], emit)
  {
    HarvestStep(lines, j, emit);
  }

  /** A chunk that is one data line, with no line break, hands out that line's text, if any. */
  lemma OneLineChunk(chunk: string, emit: string -> Option<string>)
    requires '\n' !in chunk && StartsWith(chunk, DataPrefix)
    ensures Harvest(DataLines(chunk), emit) == Handed(emit(chunk))
  {
    SplitPlain(chunk);
    assert KeepData([chunk]) == [chunk] + KeepData([]);
    assert Harvest([chunk], emit) == Harvest([], emit) + Handed(emit(chunk));
  }

  /** When every read carries exactly one data line, the deliveries are the harvest of those lines. */
  lemma {:induction false} OneLineReads(chunks: seq<string>, emit: string -> Option<string>)
    requires forall k :: 0 <= k < |chunks| ==> '\n' !in chunks[k] && StartsWith(chunks[k], DataPrefix)
    ensures Deliveries(chunks, emit) == Harvest(chunks, emit)
  {
    if chunks != [] {
      var last := chunks[|chunks| - 1];
      OneLineReads(chunks[..|chunks| - 1], emit);
      OneLineChunk(last, emit);
    }
  }

  /** A read without a line break that is not a data line hands on nothing. */
  lemma NoDataLine(chunk: string, emit: string -> Option<string>)
    requires '\n' !in chunk && !StartsWith(chunk, DataPrefix)
    ensures Harvest(DataLines(chunk), emit) == []
  {
    SplitPlain(chunk);
    assert KeepData([chunk]) == KeepData([]);
  }

  /** A stream of one read delivers what that read's data lines hand on. */
  lemma SingleRead(c: string, emit: string -> Option<string>)
    ensures Deliveries([c], emit) == Harvest(DataLines(c), emit)
  {
    assert [c][..0] == [];
  }

  /** A stream of two reads delivers what the first read's lines hand on, then the second's. */
  lemma TwoReads(c0: string, c1: string, emit: string -> Option<string>)
    ensures Deliveries([c0, c1], emit) == Harvest(DataLines(c0), emit) + Harvest(DataLines(c1), emit)
  {
    assert [c0, c1][..1] == [c0];
    SingleRead(c0, emit);
  }

  /** One more chunk extends the deliveries by that chunk's harvest. */
  lemma DeliveriesStep(chunks: seq<string>, k: nat, emit: string -> Option<string>)
    requires k < |chunks|
    ensures Deliveries(chunks[..k + 1], emit) == Deliveries(chunks[..k], emit) + Harvest(DataLines(chunks[k]), emit)
  {
    assert chunks[..k + 1][..k] == chunks[..k];
  }

  /** The texts handed out over a whole stream, chunk after chunk. */
  function Deliveries(chunks: seq<string>, emit: string -> Option<string>): seq<string> {
    if chunks == [] then []
    else Deliveries(chunks[..|chunks| - 1], emit) + Harvest(DataLines(chunks[|chunks| - 1]), emit)
  }

  /** Every delivered text is what `emit` produced for some line, so a text `emit` never produces is never delivered. */
  lemma {:induction false} HarvestAvoids(lines: seq<string>, emit: string -> Option<string>, t: string)
    requires forall l :: emit(l) != Some(t)
    ensures t !in Harvest(lines, emit)
  {
    if lines != [] {
      HarvestAvoids(lines[..|lines| - 1], emit, t);
    }
  }

  lemma {:induction false} DeliveriesAvoid(chunks: seq<string>, emit: string -> Option<string>, t: string)
    requires forall l :: emit(l) != Some(t)
    ensures t !in Deliveries(chunks, emit)
  {
    if chunks != [] {
      DeliveriesAvoid(chunks[..|chunks| - 1], emit, t);
      HarvestAvoids(DataLines(chunks[|chunks| - 1]), emit, t);
    }
  }

  /** The texts of a run of chunks, each chunk contributing `f` of it. */
  function Collect(chunks: seq<string>, f: string -> seq<string>): seq<string> {
    if chunks == [] then [] else Collect(chunks[..|chunks| - 1], f) + f(chunks[|chunks| - 1])
  }

  lemma {:induction false} CollectAppend(a: seq<string>, b: seq<string>, f: string -> seq<string>)
    ensures Collect(a + b, f) == Collect(a, f) + Collect(b, f)
  {
    if b == [] {
      assert a + b == a;
    } else {
      var b', x := b[..|b| - 1], b[|b| - 1];
      CollectAppend(a, b', f);
      assert a + b != [];
      assert (a + b)[..|a + b| - 1] == a + b';
      assert (a + b)[|a + b| - 1] == x;
      assert Collect(a + b, f) == Collect(a + b', f) + f(x);
      assert Collect(b, f) == Collect(b', f) + f(x);
    }
  }

  /** The deliveries are the chunk texts collected chunk after chunk. */
  lemma {:induction false} DeliveriesCollect(chunks: seq<string>, emit: string -> Option<string>)
    ensures Deliveries(chunks, emit) == Collect(chunks, c => Harvest(DataLines(c), emit))
  {
    if chunks != [] {
      DeliveriesCollect(chunks[..|chunks| - 1], emit);
    }
  }

  /**
   * Decoding is chunk-local: a stream cut into two runs of chunks delivers
   * what the first run delivers followed by what the second run delivers.
   */
  lemma DeliveriesAppend(a: seq<string>, b: seq<string>, emit: string -> Option<string>)
    ensures Deliveries(a + b, emit) == Deliveries(a, emit) + Deliveries(b, emit)
  {
    DeliveriesCollect(a + b, emit);
    DeliveriesCollect(a, emit);
    DeliveriesCollect(b, emit);
    CollectAppend(a, b, c => Harvest(DataLines(c), emit));
  }
}
